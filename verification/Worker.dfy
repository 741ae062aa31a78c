/**
 One worker's pass over a lease, in the order its code goes, on the file queue and
 the artifact store.

 The other workers' steps are left to the protocol; here each call this worker
 makes is shown to be the protocol's step of the same name.
 */
module Worker {
  import opened Wrappers
  import opened Numbers
  import opened LeaseQueue
  import opened LocalQueue
  import FileNames
  import opened Storage
  import opened Executor
  import opened Delivery
  import opened DeliveryLaws
  import opened Protocol
  import opened Invariants
  import opened ClaimSteps
  import LeaseRuns
  import NoRejudging
  import NothingLost
  import SpoolRefinement

  /** How each call of the pass ends, and the clock and names it draws. */
  datatype Calls = Calls(
    listable: bool,
    readable: bool,
    ran: Ran,
    benched: Outcome,
    raised: Raised,
    summing: Raised,
    savedAt: real,
    leaf: nat,
    temporary: Key,
    saved: DiskFault,
    decidedAt: real,
    arrives: bool,
    acked: bool,
    sentAt: real,
    uuid: string,
    published: Write,
    completeFails: bool,
    releaseFails: bool)

  /** The file queue has one tier, without a name. */
  predicate OneTier(s: State) {
    && (forall i :: 0 <= i < |s.origins| ==> s.origins[i].tier == "")
    && (forall k :: k in s.store && s.store[k].Envelop? ==> s.store[k].envelope.tier == "")
  }

  /** The steps of one delivery: upload if there is a turn left to send, publish what comes next
      unless that was acknowledged, and complete unless that publication failed. */
  function Delivered(w: nat, turn: Option<Turn>, c: Calls): seq<Action> {
    [Tick(c.decidedAt), Protocol.Deliver(w)]
    + match turn
      case None => []
      case Some(t) =>
        var delivered := MayBeSent(t) && c.arrives && c.acked;
        (if MayBeSent(t) then [Upload(w, c.arrives, c.arrives && c.acked)] else [])
        + (if delivered then [] else [Tick(c.sentAt), Publish(w, c.published)])
        + (if delivered || c.published == Written then [Complete(w, !c.completeFails)] else [])
  }

  /** The four ways it can go. */
  lemma DeliveredIs(w: nat, turn: Option<Turn>, c: Calls)
    ensures var start := [Tick(c.decidedAt)] + [Protocol.Deliver(w)];
            match turn
            case None => Delivered(w, turn, c) == start
            case Some(t) =>
              var sent := start + [Upload(w, c.arrives, c.arrives && c.acked)];
              var published := (if MayBeSent(t) then sent else start) + [Tick(c.sentAt)] + [Publish(w, c.published)];
              Delivered(w, turn, c) ==
                if MayBeSent(t) && c.arrives && c.acked then sent + [Complete(w, !c.completeFails)]
                else if c.published == Written then published + [Complete(w, !c.completeFails)]
                else published
  {
  }

  /** The steps of a report, which puts the message back if it is to be retried or was not sent. */
  function Reported(w: nat, cfg: Config, result: JobResult, attempt: nat, cap: nat, c: Calls): seq<Action> {
    [Upload(w, c.arrives, c.arrives && c.acked)]
    + if (result.outcome.status == Retryable && attempt < cap) || (cfg.enabled && !(c.arrives && c.acked))
      then [Release(w, !c.releaseFails)] else [Complete(w, !c.completeFails)]
  }

  /** The steps after an error nobody expects. */
  function GivenBack(w: nat, c: Calls): seq<Action> { [Panic(w), Release(w, !c.releaseFails)] }

  /** The steps of saving a callback and, if it is saved, delivering it. */
  function SavedAndDelivered(w: nat, turn: Option<Turn>, c: Calls): seq<Action> {
    [Tick(c.savedAt)]
    + if c.summing == Expected then [Crash(w)]
      else [Persist(w, c.leaf, Ending(c.saved))] + if Ending(c.saved) == Written then Delivered(w, turn, c) else []
  }

  lemma ReportedIs(w: nat, cfg: Config, result: JobResult, attempt: nat, cap: nat, c: Calls)
    ensures var sent := [Upload(w, c.arrives, c.arrives && c.acked)];
            Reported(w, cfg, result, attempt, cap, c) ==
              sent + if (result.outcome.status == Retryable && attempt < cap) || (cfg.enabled && !(c.arrives && c.acked))
                     then [Release(w, !c.releaseFails)] else [Complete(w, !c.completeFails)]
  {
  }

  /** The result a source job gets on this delivery. */
  function ResultOf(job: Job, attempt: nat, cap: nat, c: Calls): JobResult {
    Given(RawResult(job, c.ran, c.benched), attempt, cap)
  }

  predicate Saves(cfg: Config, job: Job, result: JobResult) {
    cfg.produce && cfg.enabled && job.token.Some? && result.outcome.status != Retryable
  }

  /** The steps of judging a source job and of what becomes of its result: a callback that is
      saved first, or a direct report. */
  function Judged(w: nat, cfg: Config, job: Job, attempt: nat, cap: nat, turn: Option<Turn>, c: Calls): seq<Action> {
    match c.raised
    case Expected => [Crash(w)]
    case Unexpected => GivenBack(w, c)
    case Nowhere =>
      var result := ResultOf(job, attempt, cap, c);
      [Execute(w, c.ran, c.benched)]
      + if cfg.enabled && result.outcome.status != Retryable && c.summing == Unexpected then GivenBack(w, c)
        else if Saves(cfg, job, result) then SavedAndDelivered(w, turn, c)
        else Reported(w, cfg, result, attempt, cap, c)
  }

  /** How a lookup went, what it led to, and the turn decided on, if a callback was sent or was
      to be. */
  datatype Course = Course(ok: bool, stage: Stage, turn: Option<Turn>)

  /** The steps of a whole pass. */
  function PassSteps(w: nat, cfg: Config, job: Job, attempt: nat, cap: nat, course: Course, c: Calls): seq<Action> {
    if job.bench != cfg.bencher then [Misroute(w), Release(w, !c.releaseFails)]
    else
      [Lookup(w, course.ok)]
      + match course.stage
        case Leave => []
        case Judge => Judged(w, cfg, job, attempt, cap, course.turn, c)
        case Resend(_, _) => Delivered(w, course.turn, c)
  }

  predicate TurnOf(job: Job, attempt: nat, cfg: Config, artifact: Artifact, e: Envelope, turn: Option<Turn>, now: real) {
    && (turn.Some? <==> ReadsBack(job, attempt, e))
    && (turn.Some? ==> TurnIs(job, attempt, cfg, artifact, e, turn.value, now))
  }

  /** The course is the one these files call for.  Only a call that fails may make the lookup fail. */
  ghost predicate CourseOk(files: map<Key, Blob>, cfg: Config, job: Job, attempt: nat, cap: nat, course: Course, c: Calls) {
    job.bench == cfg.bencher ==>
      && course.stage == StageOf(files, job, cfg, course.ok) && (c.listable && c.readable ==> course.ok)
      && match course.stage
         case Leave => true
         case Resend(artifact, e) => TurnOf(job, attempt, cfg, artifact, e, course.turn, c.decidedAt)
         case Judge =>
           c.raised == Nowhere && c.summing == Nowhere && Saves(cfg, job, ResultOf(job, attempt, cap, c))
           && Ending(c.saved) == Written ==>
             TurnOf(job, attempt, cfg, Saved(job.token.value, c.leaf),
                    Enveloped(job, ResultOf(job, attempt, cap, c), cfg, "", attempt, c.savedAt), course.turn, c.decidedAt)
  }

  /** Steps of worker w's own pass, and time passing. */
  predicate OwnStep(w: nat, a: Action) { !a.Claim? && (a.Tick? || Actor(a) == Some(w)) }

  predicate OwnSteps(w: nat, trace: seq<Action>) { forall a :: a in trace ==> OwnStep(w, a) }

  /** The step takes the world from s to t, and is worker w's own. */
  ghost predicate Took(s: State, t: State, w: nat, a: Action) { t == Step(s, a) && OwnStep(w, a) }

  predicate InOrder(now: real, c: Calls) { now <= c.savedAt <= c.decidedAt <= c.sentAt }

  /** What a lookup leads to. */
  datatype Stage = Leave | Judge | Resend(artifact: Artifact, envelope: Envelope)

  /** Judging, or summarising what was judged, may raise an error the pass expects, or one
      it does not. */
  datatype Raised = Nowhere | Expected | Unexpected

  class Worker {
    const queue: LocalJobQueue<Job>
    const store: ArtifactStore
    const cfg: Config
    const w: nat
    const maxJobs: Option<nat>
    var jobsClaimed: nat
    /** What the protocol makes of everything done so far, and the steps that led there. */
    ghost var world: State
    ghost var history: seq<Action>

    ghost predicate Valid()
      reads this`world, queue, store
    {
      && queue.Valid() && queue.Msgs() == world.msgs && store.files == world.store
      && |world.origins| == |world.msgs| && world.limits == Limits(queue.maxAttempts, queue.visibility)
      && world.now >= 0.0 && ConfigOk(cfg) && OneTier(world)
    }

    /** The pass of this lease stands at this phase. */
    ghost predicate At(lease: Handle<Job>, id: nat, phase: Phase)
      reads this`world, queue
    {
      && id < |world.msgs| && id < |world.origins| && queue.Issued(lease, id)
      && w in world.passes && world.passes[w].lease == Lease(id, lease.attempt)
      && world.passes[w].job == lease.job && world.passes[w].cfg == cfg && world.passes[w].phase == phase
    }

    /** The world is where this worker's history leads from the empty one. */
    ghost predicate Faithful()
      reads this`world, this`history
    {
      world == Run(Initial(world.limits), history) && ClaimsAs(w, cfg, history)
    }

    constructor (queue: LocalJobQueue<Job>, store: ArtifactStore, cfg: Config, w: nat, maxJobs: Option<nat>)
      requires queue.Valid() && queue.Msgs() == [] && store.files == map[] && ConfigOk(cfg)
      ensures Valid() && Faithful() && world.passes == map[] && history == [] && jobsClaimed == 0
      ensures this.queue == queue && this.store == store && this.cfg == cfg && this.w == w && this.maxJobs == maxJobs
      ensures world.now == 0.0
    {
      this.queue, this.store, this.cfg, this.w, this.maxJobs := queue, store, cfg, w, maxJobs;
      jobsClaimed, history := 0, [];
      world := Initial(Limits(queue.maxAttempts, queue.visibility));
    }

    /** Somebody publishes a job, or something that is not one, on this worker's queue. */
    method Submit(body: Option<Job>, delay: nat, now: real, uuid: string, write: Write)
      requires Valid() && world.now <= now && delay <= 900 && Unused(uuid, now)
      modifies this`world, this`history, queue
      ensures Valid() && world.passes == old(world.passes) && world.now == now
      ensures queue.Msgs() == if write == NotWritten then old(queue.Msgs())
                              else old(queue.Msgs()) + [Fresh(body, Some(DueAt(now, delay)), false, now)]
      ensures old(Faithful()) ==> Faithful()
    {
      ghost var s := world;
      ghost var trace := [Tick(now)]
        + if write == NotWritten then [] else [Protocol.Submit(body, Some(DueAt(now, delay)), "")];
      SubmitShape(s, w, cfg, now, body, Some(DueAt(now, delay)), trace);
      MillisNatural(now, delay);
      Rejoin(s, history, trace);
      BothClaimAs(w, cfg, history, trace);
      hide Run, Step, DueAt, Millis, ClaimsAs;
      var r := queue.Publish(body, "", delay, false, now, uuid, write);
      world := Run(s, trace);
      history := history + trace;
    }

    // ---- reading back ---------------------------------------------------

    method Load(job: Job, artifact: Artifact, readable: bool) returns (r: Option<Envelope>)
      ensures r == if readable then Delivery.Load(store.files, job, artifact) else None
    {
      if job.token.None? || !artifact.Saved? || artifact.attempt != job.token.value {
        return None;
      }
      var blob := store.GetBytes(Key(job.jobId, artifact), readable);
      if blob.Err? || blob.value.Junk? {
        return None;
      }
      var e := blob.value.envelope;
      r := if EnvelopeOk(e) && Matches(e, job) then Some(e) else None;
    }

    /** A source without a token has nothing saved; more names than the limit, or a name
        that cannot be read, is an error. */
    method Find(job: Job, listable: bool, readable: bool) returns (r: Found)
      ensures r == Delivery.Find(store.files, job) || (r == Unreadable && !(listable && readable))
    {
      if job.token.None? {
        return Nothing;
      }
      var token := job.token.value;
      ghost var keys := AttemptKeys(store.files, job.jobId, token);
      var names := store.ListPrefix(job.jobId, token, LOOKUP_LIMIT, listable);
      if names.Err? {
        return Unreadable;
      }
      if names.value == [] {
        assert keys == {};
        return Nothing;
      }
      ListedFirst(names.value, keys, job.jobId, token);
      var e := Load(job, names.value[0], readable);
      r := if e.Some? then Hit(names.value[0], e.value) else Unreadable;
    }

    /** A marker is only ever loaded, and a source with a saved callback never judged. */
    method LookUp(lease: Handle<Job>, ghost id: nat, c: Calls) returns (stage: Stage, ghost ok: bool)
      requires Valid() && At(lease, id, Started) && !Misrouted(world.passes[w])
      modifies this`world
      ensures Valid() && Took(old(world), world, w, Lookup(w, ok))
      ensures stage == StageOf(store.files, lease.job, cfg, ok) && (c.listable && c.readable ==> ok)
      ensures match stage
              case Leave => w !in world.passes
              case Judge => At(lease, id, ToExecute)
              case Resend(artifact, e) => At(lease, id, ToDeliver(artifact, e)) && e.tier == ""
      ensures world.now == old(world.now)
    {
      var readable := cfg.enabled && lease.job.token.Some?;
      ok := true;
      if lease.job.delivery.Some? {
        if !readable {
          stage := Leave;
        } else {
          var state := ParseMarker(lease.job.delivery.value);
          if state.None? {
            stage := Leave;
          } else {
            var e := Load(lease.job, state.value.artifact, c.readable);
            ok := c.readable;
            stage := if e.Some? then Resend(state.value.artifact, e.value) else Leave;
          }
        }
      } else if readable {
        var found := Find(lease.job, c.listable, c.readable);
        ok := found == Delivery.Find(store.files, lease.job);
        match found
        case Nothing => stage := Judge;
        case Hit(artifact, e) => stage := Resend(artifact, e);
        case Unreadable => stage := Leave;
      } else {
        stage := Judge;
      }
      LookupShape(world, w, ok);
      assert stage == StageOf(store.files, lease.job, cfg, ok);
      hide Step, StageOf;
      world := Step(world, Lookup(w, ok));
    }

    // ---- judging --------------------------------------------------------

    /** Only the last delivery's retryable result is rewritten; it is then a system error to
        whoever reads the verdict. */
    method GiveUpIfLastDelivery(lease: Handle<Job>, result: JobResult) returns (r: JobResult)
      ensures r == Given(result, lease.attempt, queue.maxAttempts)
      ensures r != result <==> result.outcome.status == Retryable && lease.attempt >= queue.maxAttempts
      ensures r.outcome.status == Retryable <==> result.outcome.status == Retryable && lease.attempt < queue.maxAttempts
      ensures r.jobId == result.jobId && r.token == result.token
      ensures r != result ==> r.outcome.status == Failed && r.outcome.report.None?
      ensures r != result && result.outcome.killedBy.None? ==>
                forall uid :: PayloadOf(r, uid).summary.verdict == "SE"
    {
      if result.outcome.status != Retryable {
        return result;
      }
      if lease.attempt < queue.maxAttempts {
        return result;
      }
      r := result.(outcome := result.outcome.(status := Failed, report := None,
                                               error := "no worker could judge this: " + result.outcome.error));
    }

    method ExecuteJob(lease: Handle<Job>, ghost id: nat, c: Calls) returns (result: JobResult)
      requires Valid() && At(lease, id, ToExecute)
      modifies this`world
      ensures Valid() && Took(old(world), world, w, Execute(w, c.ran, c.benched)) && world.now == old(world.now)
      ensures result == ResultOf(lease.job, lease.attempt, queue.maxAttempts, c)
      ensures At(lease, id, if cfg.produce && cfg.enabled && lease.job.token.Some? && result.outcome.status != Retryable
                            then ToPersist(result) else ToReport(result))
    {
      result := GiveUpIfLastDelivery(lease, RawResult(lease.job, c.ran, c.benched));
      ExecuteShape(world, w, c.ran, c.benched);
      hide Step, OneTier, RawResult, Given;
      world := Step(world, Execute(w, c.ran, c.benched));
    }

    /** The envelope is written before anything is sent. */
    method Save(lease: Handle<Job>, ghost id: nat, result: JobResult, now: real, c: Calls)
      returns (saved: Option<(Artifact, Envelope)>)
      requires Valid() && At(lease, id, ToPersist(result)) && lease.job.token.Some? && now == world.now
      requires Key(lease.job.jobId, Saved(lease.job.token.value, c.leaf)) !in store.files
      requires c.temporary !in store.files
      requires c.temporary != Key(lease.job.jobId, Saved(lease.job.token.value, c.leaf))
      modifies this`world, store
      ensures Valid() && Took(old(world), world, w, Persist(w, c.leaf, Ending(c.saved)))
      ensures saved == if Ending(c.saved) != Written then None
                       else Some((Saved(lease.job.token.value, c.leaf), Enveloped(lease.job, result, cfg, "", lease.attempt, now)))
      ensures match saved
              case None => w !in world.passes
              case Some(s) => At(lease, id, ToDeliver(s.0, s.1)) && s.1.tier == ""
      ensures world.now == old(world.now)
    {
      var artifact := Saved(lease.job.token.value, c.leaf);
      var e := Enveloped(lease.job, result, cfg, "", lease.attempt, now);
      var r := store.PutImmutable(Key(lease.job.jobId, artifact), c.temporary, Envelop(e), c.saved);
      saved := if r.Ok? then Some((artifact, e)) else None;
      PersistShape(world, w, c.leaf, Ending(c.saved));
      hide Step, Enveloped, PayloadOf;
      world := Step(world, Persist(w, c.leaf, Ending(c.saved)));
    }

    // ---- acknowledging --------------------------------------------------

    method CompleteLease(lease: Handle<Job>, ghost id: nat, fails: bool)
      requires Valid() && At(lease, id, ToComplete)
      modifies this`world, queue
      ensures Valid() && Took(old(world), world, w, Complete(w, !fails)) && w !in world.passes
    {
      var r := queue.Complete(lease, id, fails);
      CompleteShape(world, w, !fails);
      hide Step, Completed, OneTier;
      world := Step(world, Complete(w, !fails));
    }

    /** The message goes back to the queue. */
    method GiveBack(lease: Handle<Job>, ghost id: nat, fails: bool)
      requires queue.Valid() && queue.Issued(lease, id)
      modifies queue
      ensures queue.Valid()
      ensures queue.Msgs() == if fails then old(queue.Msgs())
                              else old(queue.Msgs())[id := Released(old(queue.Msgs())[id], lease.attempt)]
    {
      hide *;
      var r := queue.Release(lease, id, fails);
    }

    method ReleaseLease(lease: Handle<Job>, ghost id: nat, fails: bool)
      requires Valid() && At(lease, id, ToRelease)
      modifies this`world, queue
      ensures Valid() && Took(old(world), world, w, Release(w, !fails)) && w !in world.passes
    {
      GiveBack(lease, id, fails);
      ReleaseShape(world, w, !fails);
      hide Step, Released, OneTier;
      world := Step(world, Release(w, !fails));
    }

    /** The name drawn for a successor is not taken, whatever its due time. */
    ghost predicate Unused(uuid: string, now: real)
      reads queue
    {
      '#' !in uuid && forall delay: nat :: FileNames.PublishedOrigin(DueAt(now, delay), uuid) !in queue.view.origins
    }

    /** The marker goes to the queue, or the publication fails. */
    method SendMarker(lease: Handle<Job>, ghost id: nat, turn: Turn, now: real, c: Calls) returns (ok: bool)
      requires queue.Valid() && queue.Issued(lease, id) && now >= 0.0 && turn.envelope.tier == ""
      requires Unused(c.uuid, now)
      modifies queue
      ensures queue.Valid() && queue.Issued(lease, id) && ok == (c.published == Written)
      ensures queue.Msgs() == if c.published == NotWritten then old(queue.Msgs())
                              else old(queue.Msgs()) + [MarkerSent(turn, now)]
    {
      hide DelayOf, Millis, DueAt, Next, Message;
      var next := Next(turn);
      var delay := DelayOf(next);
      MillisNatural(now, delay);
      var r := queue.Publish(Some(Message(turn.envelope, next)), turn.envelope.tier, delay, next.exhausted, now, c.uuid,
                             c.published);
      ok := r.Ok?;
    }

    /** The successor is published before its source is deleted. */
    method PublishNext(lease: Handle<Job>, ghost id: nat, turn: Turn, now: real, c: Calls) returns (ok: bool)
      requires Valid() && At(lease, id, ToPublish(turn)) && now == world.now && Unused(c.uuid, now)
      requires turn.envelope.tier == ""
      modifies this`world, queue
      ensures Valid() && Took(old(world), world, w, Publish(w, c.published))
      ensures ok == (c.published == Written)
      ensures if ok then At(lease, id, ToComplete) else w !in world.passes
    {
      ok := SendMarker(lease, id, turn, now, c);
      PublishShape(world, w, turn, c.published);
      hide Step, MarkerSent, OneTier;
      world := Step(world, Publish(w, c.published));
    }

    // ---- delivering -----------------------------------------------------

    /** Time passes between two calls. */
    ghost method Wait(lease: Handle<Job>, id: nat, phase: Phase, now: real)
      requires Valid() && At(lease, id, phase) && world.now <= now
      modifies this`world
      ensures Valid() && At(lease, id, phase) && Took(old(world), world, w, Tick(now)) && world.now == now
    {
      world := Step(world, Tick(now));
    }

    /** What this delivery decides on, before anything is sent. */
    method Decide(lease: Handle<Job>, ghost id: nat, artifact: Artifact, e: Envelope, now: real)
      returns (turn: Option<Turn>)
      requires Valid() && At(lease, id, ToDeliver(artifact, e)) && now == world.now
      modifies this`world
      ensures Valid() && Took(old(world), world, w, Protocol.Deliver(w)) && world.now == old(world.now)
      ensures match turn
              case None => w !in world.passes
              case Some(t) => t.envelope == e && At(lease, id, if MayBeSent(t) then Uploading(t) else ToPublish(t))
      ensures turn.Some? <==> ReadsBack(lease.job, lease.attempt, e)
      ensures turn.Some? ==> TurnIs(lease.job, lease.attempt, cfg, artifact, e, turn.value, now)
      ensures turn.Some? ==> (Over(turn.value) <==> !MayBeSent(turn.value))
    {
      StateIs(lease.job, lease.attempt, artifact, e);
      var state := StateOf(lease.job, lease.attempt, artifact, e);
      DeliverShape(world, w);
      hide Step, StateOf, AttemptNo, OneTier, Over, MayBeSent, ReadsBack, Within, Numbered;
      world := Step(world, Protocol.Deliver(w));
      if state.None? {
        return None;
      }
      var attempt := AttemptNo(state.value, lease.job.delivery.Some?, lease.attempt);
      var maximum := Min(state.value.maxRounds, cfg.maxRounds);
      turn := Some(Turn(artifact, e, state.value, attempt, cfg.maxRounds, maximum, now));
      OverIs(turn.value);
    }

    /** One callback goes out.  Only an acknowledged one counts as delivered. */
    method SendReplay(lease: Handle<Job>, ghost id: nat, turn: Turn, c: Calls) returns (delivered: bool)
      requires Valid() && At(lease, id, Uploading(turn))
      modifies this`world
      ensures Valid() && Took(old(world), world, w, Upload(w, c.arrives, c.arrives && c.acked))
      ensures world.now == old(world.now)
      ensures delivered == (c.arrives && c.acked)
      ensures At(lease, id, if delivered then ToComplete else ToPublish(turn))
    {
      delivered := c.arrives && c.acked;
      UploadShape(world, w, turn, c.arrives, delivered);
      hide Step, OneTier;
      world := Step(world, Upload(w, c.arrives, delivered));
    }

    /** Upload if there is a turn left, and otherwise, or if that fails, publish what comes
        next; only then let the message go. */
    method Deliver(lease: Handle<Job>, ghost id: nat, artifact: Artifact, e: Envelope, c: Calls)
      returns (ghost trace: seq<Action>, ghost turn: Option<Turn>)
      requires Valid() && At(lease, id, ToDeliver(artifact, e)) && e.tier == ""
      requires world.now <= c.decidedAt <= c.sentAt && Unused(c.uuid, c.sentAt)
      modifies this`world, queue
      ensures Valid() && w !in world.passes && OwnSteps(w, trace) && world == Run(old(world), trace)
      ensures turn.Some? <==> ReadsBack(lease.job, lease.attempt, e)
      ensures turn.Some? ==> TurnIs(lease.job, lease.attempt, cfg, artifact, e, turn.value, c.decidedAt)
      ensures trace == Delivered(w, turn, c)
    {
      hide *;
      ghost var s := world;
      NoSteps(s, w);
      Wait(lease, id, ToDeliver(artifact, e), c.decidedAt);
      trace := Extend(s, [], world, w, Tick(c.decidedAt));
      var decided := Decide(lease, id, artifact, e, c.decidedAt);
      turn := decided;
      trace := Extend(s, trace, world, w, Protocol.Deliver(w));
      DeliveredIs(w, decided, c);
      if decided.None? {
        return;
      }
      var delivered := false;
      if !Over(decided.value) {
        delivered := SendReplay(lease, id, decided.value, c);
        trace := Extend(s, trace, world, w, Upload(w, c.arrives, c.arrives && c.acked));
      }
      if !delivered {
        Wait(lease, id, ToPublish(decided.value), c.sentAt);
        trace := Extend(s, trace, world, w, Tick(c.sentAt));
        var ok := PublishNext(lease, id, decided.value, c.sentAt, c);
        trace := Extend(s, trace, world, w, Publish(w, c.published));
        if !ok {
          return;
        }
      }
      CompleteLease(lease, id, c.completeFails);
      trace := Extend(s, trace, world, w, Complete(w, !c.completeFails));
    }

    // ---- reporting directly ---------------------------------------------

    /** The verdict goes out before the message is removed; one that could not be sent, or
        is to be retried, puts the message back. */
    method Report(lease: Handle<Job>, ghost id: nat, result: JobResult, c: Calls) returns (release: bool)
      requires Valid() && At(lease, id, ToReport(result))
      modifies this`world
      ensures release <==> (result.outcome.status == Retryable && lease.attempt < queue.maxAttempts)
                           || (cfg.enabled && !(c.arrives && c.acked))
      ensures Valid() && Took(old(world), world, w, Upload(w, c.arrives, c.arrives && c.acked))
      ensures At(lease, id, if release then ToRelease else ToComplete)
    {
      var given := GiveUpIfLastDelivery(lease, result);
      var delivered := !cfg.enabled || given.outcome.status == Retryable || (c.arrives && c.acked);
      release := given.outcome.status == Retryable || !delivered;
      ReportShape(world, w, result, c.arrives, c.arrives && c.acked);
      hide Step, OneTier, Given;
      world := Step(world, Upload(w, c.arrives, c.arrives && c.acked));
    }

    method HandleResult(lease: Handle<Job>, ghost id: nat, result: JobResult, c: Calls)
      returns (ghost trace: seq<Action>)
      requires Valid() && At(lease, id, ToReport(result))
      modifies this`world, queue
      ensures Valid() && w !in world.passes && OwnSteps(w, trace) && world == Run(old(world), trace)
      ensures trace == Reported(w, cfg, result, lease.attempt, queue.maxAttempts, c)
    {
      ReportedIs(w, cfg, result, lease.attempt, queue.maxAttempts, c);
      hide *;
      ghost var s := world;
      NoSteps(s, w);
      var release := Report(lease, id, result, c);
      trace := Extend(s, [], world, w, Upload(w, c.arrives, c.arrives && c.acked));
      if release {
        ReleaseLease(lease, id, c.releaseFails);
        trace := Extend(s, trace, world, w, Release(w, !c.releaseFails));
      } else {
        CompleteLease(lease, id, c.completeFails);
        trace := Extend(s, trace, world, w, Complete(w, !c.completeFails));
      }
    }

    // ---- recovering -----------------------------------------------------

    /** One exact artifact starts a new window by hand; a dry run only says what it would be. */
    method Recover(key: Key, dryRun: bool, now: real, c: Calls) returns (r: Option<DeliveryState>)
      requires Valid() && now == world.now && Unused(c.uuid, now)
      modifies this`world, this`history, queue
      ensures Valid() && (old(Faithful()) ==> Faithful())
      ensures dryRun ==> world == old(world)
      ensures !dryRun ==>
                world == Step(old(world), Protocol.Recover(key, cfg, if c.readable then c.published else NotWritten))
      ensures r == if c.readable && Recoverable(store.files, key).Some? && (dryRun || (cfg.enabled && c.published == Written))
                   then Some(NewWindow(key.artifact, now, cfg)) else None
    {
      RecoverRefused(world, key, cfg, if c.readable then c.published else NotWritten);
      hide Step, Recoverable, NewWindow;
      var e := LoadForRecovery(key, c.readable);
      if e.None? || (!dryRun && !cfg.enabled) {
        return None;
      }
      r := Some(NewWindow(key.artifact, now, cfg));
      if !dryRun {
        var sent := Requeue(key, e.value, now, c);
        if !sent {
          r := None;
        }
      }
    }

    method Requeue(key: Key, e: Envelope, now: real, c: Calls) returns (ok: bool)
      requires Valid() && now == world.now && Unused(c.uuid, now) && cfg.enabled
      requires Recoverable(store.files, key) == Some(e) && e.tier == ""
      modifies this`world, this`history, queue
      ensures Valid() && (old(Faithful()) ==> Faithful())
      ensures world == Step(old(world), Protocol.Recover(key, cfg, c.published)) && ok == (c.published == Written)
    {
      RecoverShape(world, key, cfg, c.published);
      hide Step, Run, OneTier, ClaimsAs, Message, DueAt, Fresh, Recoverable, NewWindow;
      ok := SendRecovered(e, NewWindow(key.artifact, now, cfg), now, c);
      Recorded(world, history, w, cfg, Protocol.Recover(key, cfg, c.published));
      history := history + [Protocol.Recover(key, cfg, c.published)];
      world := Step(world, Protocol.Recover(key, cfg, c.published));
    }

    method SendRecovered(e: Envelope, st: DeliveryState, now: real, c: Calls) returns (ok: bool)
      requires queue.Valid() && now >= 0.0 && e.tier == "" && Unused(c.uuid, now)
      modifies queue
      ensures queue.Valid() && ok == (c.published == Written)
      ensures queue.Msgs() == if c.published == NotWritten then old(queue.Msgs())
                              else old(queue.Msgs()) + [Fresh(Some(Message(e, st)), Some(DueAt(now, 0)), false, now)]
    {
      hide Message, DueAt, Millis;
      MillisNatural(now, 0);
      var sent := queue.Publish(Some(Message(e, st)), e.tier, 0, false, now, c.uuid, c.published);
      ok := sent.Ok?;
    }

    /** The envelope at this key, if it passes the checks of an automatic replay. */
    method LoadForRecovery(key: Key, readable: bool) returns (r: Option<Envelope>)
      requires Valid()
      ensures r == if readable then Recoverable(store.files, key) else None
      ensures r.Some? ==> r.value.tier == ""
    {
      var blob := store.GetBytes(key, readable);
      if blob.Err? || blob.value.Junk? {
        return None;
      }
      var e := Load(blob.value.envelope.job, key.artifact, readable);
      r := if e.Some? && e.value.job.jobId == key.jobId then e else None;
    }

    // ---- claiming -------------------------------------------------------

    /** A claim over the files is a run of the protocol that ends, if a lease came of it,
        with this worker's pass begun. */
    method ClaimOne(now: real, unmovable: set<string>, faults: map<string, Fault>)
      returns (r: Result<Option<Handle<Job>>, QueueError>, ghost id: nat, ghost trace: seq<Action>)
      requires Valid() && w !in world.passes && now == world.now
      modifies this`world, queue
      ensures Valid() && world == Run(old(world), trace) && world.now == now && ClaimsAs(w, cfg, trace)
      ensures queue.view.origins == old(queue.view.origins)
      ensures if r.Ok? && r.value.Some? then At(r.value.value, id, Started) else world.passes == old(world.passes)
      ensures OnlyClaims(trace)
      ensures ClaimAnswers(old(queue.view), queue.view, now, queue.visibility, queue.maxAttempts, unmovable, faults, r)
    {
      hide Run, Scanned, Leases, Swept, ClaimsAs, OnlyClaims;
      ghost var before, s := queue.view, world;
      ghost var swept, stop;
      r, swept, stop := queue.Claim(now, unmovable, faults);
      id := if stop.Some? then stop.value else 0;
      trace := ClaimTrace(s, w, cfg, before.msgs, swept, queue.view, stop, now, unmovable, faults, r);
      world := Run(s, trace);
    }

    // ---- the whole pass -------------------------------------------------

    /** An error the pass expects ends it with nothing acknowledged. */
    ghost method Fail(lease: Handle<Job>, id: nat, phase: Phase)
      requires Valid() && At(lease, id, phase)
      modifies this`world
      ensures Valid() && w !in world.passes && Took(old(world), world, w, Crash(w))
    {
      world := Step(world, Crash(w));
    }

    /** Any other error puts the message back. */
    ghost method Recoil(lease: Handle<Job>, id: nat, phase: Phase)
      requires Valid() && At(lease, id, phase)
      modifies this`world
      ensures Valid() && At(lease, id, ToRelease) && Took(old(world), world, w, Panic(w))
    {
      world := Step(world, Panic(w));
    }

    /** The names this pass may draw are not taken. */
    ghost predicate Drawn(job: Job, c: Calls)
      reads queue, store
    {
      Unused(c.uuid, c.sentAt) && c.temporary !in store.files
      && (job.token.Some? ==>
            Key(job.jobId, Saved(job.token.value, c.leaf)) !in store.files
            && c.temporary != Key(job.jobId, Saved(job.token.value, c.leaf)))
    }

    /** An error nobody expects, and the release that follows it. */
    method PutBack(lease: Handle<Job>, ghost id: nat, ghost phase: Phase, c: Calls) returns (ghost trace: seq<Action>)
      requires Valid() && At(lease, id, phase)
      modifies this`world, queue
      ensures Valid() && w !in world.passes && OwnSteps(w, trace) && world == Run(old(world), trace)
      ensures trace == GivenBack(w, c)
    {
      assert GivenBack(w, c) == [] + [Panic(w)] + [Release(w, !c.releaseFails)];
      hide *;
      ghost var s := world;
      NoSteps(s, w);
      Recoil(lease, id, phase);
      trace := Extend(s, [], world, w, Panic(w));
      ReleaseLease(lease, id, c.releaseFails);
      trace := Extend(s, trace, world, w, Release(w, !c.releaseFails));
    }

    /** Save the callback, then send what was saved. */
    method SaveAndDeliver(lease: Handle<Job>, ghost id: nat, result: JobResult, c: Calls)
      returns (ghost trace: seq<Action>, ghost turn: Option<Turn>)
      requires Valid() && At(lease, id, ToPersist(result)) && InOrder(world.now, c) && Drawn(lease.job, c)
      requires lease.job.token.Some?
      modifies this`world, queue, store
      ensures Valid() && w !in world.passes && OwnSteps(w, trace) && world == Run(old(world), trace)
      ensures trace == SavedAndDelivered(w, turn, c)
      ensures c.summing != Expected && Ending(c.saved) == Written ==>
                TurnOf(lease.job, lease.attempt, cfg, Saved(lease.job.token.value, c.leaf),
                       Enveloped(lease.job, result, cfg, "", lease.attempt, c.savedAt), turn, c.decidedAt)
    {
      hide Valid, At, Step, Run, Took, OwnStep, OwnSteps, Unused, Enveloped, ReadsBack, TurnIs, Delivered;
      ghost var s := world;
      NoSteps(s, w);
      turn := None;
      Wait(lease, id, ToPersist(result), c.savedAt);
      trace := Extend(s, [], world, w, Tick(c.savedAt));
      if c.summing == Expected {
        Fail(lease, id, ToPersist(result));
        trace := Extend(s, trace, world, w, Crash(w));
        return;
      }
      var saved := Save(lease, id, result, c.savedAt, c);
      trace := Extend(s, trace, world, w, Persist(w, c.leaf, Ending(c.saved)));
      if saved.Some? {
        ghost var rest;
        rest, turn := Deliver(lease, id, saved.value.0, saved.value.1, c);
        trace := ExtendAll(s, trace, rest, world, w);
      }
    }

    /** Judge a source job, save its callback if callbacks are saved, and deliver or report.
        Judging can fail, and so can summarising what was judged, which only a callback needs. */
    method JudgeAndDeliver(lease: Handle<Job>, ghost id: nat, c: Calls)
      returns (ghost trace: seq<Action>, ghost turn: Option<Turn>)
      requires Valid() && At(lease, id, ToExecute) && InOrder(world.now, c) && Drawn(lease.job, c)
      modifies this`world, queue, store
      ensures Valid() && w !in world.passes && OwnSteps(w, trace) && world == Run(old(world), trace)
      ensures trace == Judged(w, cfg, lease.job, lease.attempt, queue.maxAttempts, turn, c)
      ensures var result := ResultOf(lease.job, lease.attempt, queue.maxAttempts, c);
              c.raised == Nowhere && c.summing == Nowhere && Saves(cfg, lease.job, result) && Ending(c.saved) == Written ==>
                TurnOf(lease.job, lease.attempt, cfg, Saved(lease.job.token.value, c.leaf),
                       Enveloped(lease.job, result, cfg, "", lease.attempt, c.savedAt), turn, c.decidedAt)
    {
      hide Valid, At, Step, Run, Took, OwnStep, OwnSteps, Unused, Enveloped, TurnOf, ResultOf, SavedAndDelivered, Reported,
           GivenBack;
      ghost var s := world;
      NoSteps(s, w);
      turn := None;
      if c.raised == Expected {
        Fail(lease, id, ToExecute);
        trace := Extend(s, [], world, w, Crash(w));
        return;
      }
      if c.raised == Unexpected {
        trace := PutBack(lease, id, ToExecute, c);
        return;
      }
      var result := ExecuteJob(lease, id, c);
      trace := Extend(s, [], world, w, Execute(w, c.ran, c.benched));
      var saves := cfg.produce && cfg.enabled && lease.job.token.Some? && result.outcome.status != Retryable;
      var summarises := cfg.enabled && result.outcome.status != Retryable;
      ghost var rest;
      if summarises && c.summing == Unexpected {
        rest := PutBack(lease, id, if saves then ToPersist(result) else ToReport(result), c);
      } else if saves {
        rest, turn := SaveAndDeliver(lease, id, result, c);
      } else {
        rest := HandleResult(lease, id, result, c);
      }
      trace := ExtendAll(s, trace, rest, world, w);
    }

    /** One lease, from its claim to its end: the pass is a run of the protocol, and the very
        steps that its lookup, its result and its calls lead to. */
    method ProcessLease(lease: Handle<Job>, ghost id: nat, c: Calls)
      returns (ghost trace: seq<Action>, ghost course: Course)
      requires Valid() && At(lease, id, Started) && !Misrouted(world.passes[w])
      requires InOrder(world.now, c) && Drawn(lease.job, c)
      modifies this`world, queue, store
      ensures Valid() && w !in world.passes && OwnSteps(w, trace) && world == Run(old(world), trace)
      ensures trace == PassSteps(w, cfg, lease.job, lease.attempt, queue.maxAttempts, course, c)
      ensures CourseOk(old(store.files), cfg, lease.job, lease.attempt, queue.maxAttempts, course, c)
    {
      assert lease.job.bench == cfg.bencher;
      hide Valid, At, Step, Run, Took, OwnStep, OwnSteps, Unused, StageOf, Judged, Delivered, ReadsBack, TurnIs, Enveloped,
           ResultOf, Saves;
      ghost var s := world;
      NoSteps(s, w);
      var stage, ok := LookUp(lease, id, c);
      trace := Extend(s, [], world, w, Lookup(w, ok));
      ghost var turn: Option<Turn> := None;
      match stage {
        case Leave =>
        case Judge =>
          ghost var rest;
          rest, turn := JudgeAndDeliver(lease, id, c);
          trace := ExtendAll(s, trace, rest, world, w);
        case Resend(artifact, e) =>
          ghost var rest;
          rest, turn := Deliver(lease, id, artifact, e, c);
          trace := ExtendAll(s, trace, rest, world, w);
      }
      course := Course(ok, stage, turn);
    }

    /** A job for the other role goes back untouched. */
    method RunOne(lease: Handle<Job>, ghost id: nat, c: Calls) returns (ghost trace: seq<Action>, ghost course: Course)
      requires Valid() && At(lease, id, Started) && InOrder(world.now, c) && Drawn(lease.job, c)
      modifies this`world, queue, store
      ensures Valid() && w !in world.passes && OwnSteps(w, trace) && world == Run(old(world), trace)
      ensures trace == PassSteps(w, cfg, lease.job, lease.attempt, queue.maxAttempts, course, c)
      ensures CourseOk(old(store.files), cfg, lease.job, lease.attempt, queue.maxAttempts, course, c)
    {
      course := Course(false, Leave, None);
      if lease.job.bench == cfg.bencher {
        trace, course := ProcessLease(lease, id, c);
      } else {
        ghost var s := world;
        NoSteps(s, w);
        TurnAway(lease, id);
        trace := Extend(s, [], world, w, Misroute(w));
        ReleaseLease(lease, id, c.releaseFails);
        trace := Extend(s, trace, world, w, Release(w, !c.releaseFails));
      }
    }

    ghost method TurnAway(lease: Handle<Job>, id: nat)
      requires Valid() && At(lease, id, Started) && lease.job.bench != cfg.bencher
      modifies this`world
      ensures Valid() && At(lease, id, ToRelease) && Took(old(world), world, w, Misroute(w))
    {
      world := Step(world, Misroute(w));
    }

    method ShouldClaimMore() returns (yes: bool)
      ensures yes <==> maxJobs.None? || jobsClaimed < maxJobs.value
    {
      yes := maxJobs.None? || jobsClaimed < maxJobs.value;
    }

    /** No name the coming pass may draw is taken, whatever job it is for. */
    ghost predicate AllFresh(c: Calls)
      reads queue, store
    {
      && Unused(c.uuid, c.sentAt) && c.temporary !in store.files && c.temporary.artifact.Elsewhere?
      && forall k :: k in store.files && k.artifact.Saved? ==> k.artifact.leaf != c.leaf
    }

    /** Claim at most one job, and see it through, by the steps its pass consists of. */
    method ClaimAndWork(now: real, unmovable: set<string>, faults: map<string, Fault>, c: Calls)
      returns (worked: bool, ghost trace: seq<Action>, ghost answer: Option<Handle<Job>>, ghost claim: seq<Action>,
               ghost course: Course)
      requires Valid() && w !in world.passes && world.now <= now && InOrder(now, c) && AllFresh(c)
      modifies this`world, queue, store
      ensures Valid() && w !in world.passes && world == Run(old(world), trace) && ClaimsAs(w, cfg, trace)
      ensures worked == answer.Some? && OnlyClaims(claim)
      ensures Answered(old(queue.view), now, unmovable, faults, answer)
      ensures trace == [Tick(now)] + claim
                + (match answer
                   case None => []
                   case Some(l) => PassSteps(w, cfg, l.job, l.attempt, queue.maxAttempts, course, c))
      ensures answer.Some? ==>
                CourseOk(old(store.files), cfg, answer.value.job, answer.value.attempt, queue.maxAttempts, course, c)
    {
      hide Run, Step, Took, At, OwnStep, OwnSteps, ClaimsAs, Claimed, OnlyClaims, ClaimAnswers, PassSteps, CourseOk;
      course := Course(false, Leave, None);
      ghost var s := world;
      NoSteps(s, w);
      Sleep(now);
      trace := Extend(s, [], world, w, Tick(now));
      OwnStepsClaimNothing(w, cfg, trace);
      var r;
      ghost var id;
      r, id, claim := ClaimOne(now, unmovable, faults);
      trace := Joined(s, trace, claim, world, w, cfg);
      worked := r.Ok? && r.value.Some?;
      answer := if r.Ok? then r.value else None;
      if worked {
        ghost var rest;
        rest, course := RunOne(r.value.value, id, c);
        OwnStepsClaimNothing(w, cfg, rest);
        trace := Joined(s, trace, rest, world, w, cfg);
      }
    }

    /** The lease, if any, is the queue's answer to a claim on these files. */
    ghost predicate Answered(before: View<Job>, now: real, unmovable: set<string>, faults: map<string, Fault>,
                             answer: Option<Handle<Job>>) {
      exists mid: View<Job>, r: Result<Option<Handle<Job>>, QueueError> ::
        (answer == if r.Ok? then r.value else None)
        && ClaimAnswers(before, mid, now, queue.visibility, queue.maxAttempts, unmovable, faults, r)
    }

    /** One turn of the poll loop.  Nothing happens to a worker that has its fill or is not healthy;
        any other claims at most one job, takes what the queue answers, and sees it through. */
    method Poll(now: real, healthy: bool, unmovable: set<string>, faults: map<string, Fault>, c: Calls)
      returns (worked: bool, ghost trace: seq<Action>, ghost answer: Option<Handle<Job>>, ghost claim: seq<Action>,
               ghost course: Course)
      requires Valid() && w !in world.passes && world.now <= now && InOrder(now, c) && AllFresh(c)
      modifies this`world, this`history, this`jobsClaimed, queue, store
      ensures Valid() && w !in world.passes
      ensures history == old(history) + trace && world == Run(old(world), trace) && ClaimsAs(w, cfg, trace)
      ensures old(Faithful()) ==> Faithful()
      ensures worked == answer.Some? && jobsClaimed == old(jobsClaimed) + if worked then 1 else 0
      ensures if healthy && (maxJobs.None? || old(jobsClaimed) < maxJobs.value) then
                && OnlyClaims(claim) && Answered(old(queue.view), now, unmovable, faults, answer)
                && trace == [Tick(now)] + claim
                     + (match answer
                        case None => []
                        case Some(l) => PassSteps(w, cfg, l.job, l.attempt, queue.maxAttempts, course, c))
                && (answer.Some? ==>
                      CourseOk(old(store.files), cfg, answer.value.job, answer.value.attempt, queue.maxAttempts, course, c))
              else !worked && trace == []
    {
      hide Run, Step, ClaimsAs, OnlyClaims, Answered, PassSteps, CourseOk, AllFresh;
      worked, trace, claim, answer := false, [], [], None;
      course := Course(false, Leave, None);
      ghost var s := world;
      NoSteps(s, w);
      OwnStepsClaimNothing(w, cfg, []);
      var more := ShouldClaimMore();
      if more && healthy {
        worked, trace, answer, claim, course := ClaimAndWork(now, unmovable, faults, c);
        if worked {
          jobsClaimed := jobsClaimed + 1;
        }
      }
      Rejoin(s, history, trace);
      BothClaimAs(w, cfg, history, trace);
      history := history + trace;
    }

    ghost method Sleep(now: real)
      requires Valid() && world.now <= now
      modifies this`world
      ensures Valid() && Took(old(world), world, w, Tick(now)) && world == old(world).(now := now)
    {
      world := Step(world, Tick(now));
    }
  }

  lemma NoSteps(s: State, w: nat)
    ensures Run(s, []) == s && OwnSteps(w, [])
  {
  }

  /** The trace grows by the step just taken. */
  lemma Extend(s: State, trace: seq<Action>, t: State, w: nat, a: Action) returns (longer: seq<Action>)
    requires OwnSteps(w, trace) && Took(Run(s, trace), t, w, a)
    ensures longer == trace + [a] && OwnSteps(w, longer) && t == Run(s, longer)
  {
    longer := trace + [a];
    RunOneMore(s, trace, a);
  }

  /** Every claim in it is worker w's, under this configuration. */
  predicate ClaimsAs(w: nat, cfg: Config, trace: seq<Action>) {
    forall a :: a in trace && a.Claim? ==> a.w == w && a.cfg == cfg
  }

  lemma OwnStepsClaimNothing(w: nat, cfg: Config, trace: seq<Action>)
    requires OwnSteps(w, trace)
    ensures ClaimsAs(w, cfg, trace)
  {
    forall a | a in trace
      ensures !a.Claim?
    {
      assert OwnStep(w, a);
    }
  }

  lemma Joined(s: State, trace: seq<Action>, more: seq<Action>, t: State, w: nat, cfg: Config)
    returns (longer: seq<Action>)
    requires ClaimsAs(w, cfg, trace) && ClaimsAs(w, cfg, more) && t == Run(Run(s, trace), more)
    ensures longer == trace + more && ClaimsAs(w, cfg, longer) && t == Run(s, longer)
  {
    longer := trace + more;
    RunAppend(s, trace, more);
  }

  lemma BothClaimAs(w: nat, cfg: Config, trace: seq<Action>, more: seq<Action>)
    ensures ClaimsAs(w, cfg, trace) && ClaimsAs(w, cfg, more) ==> ClaimsAs(w, cfg, trace + more)
  {
  }

  lemma Rejoin(s: State, history: seq<Action>, trace: seq<Action>)
    ensures Run(s, trace).limits == s.limits
    ensures s == Run(Initial(s.limits), history) ==> Run(s, trace) == Run(Initial(s.limits), history + trace)
  {
    RunGrows(s, trace);
    RunAppend(Initial(s.limits), history, trace);
  }

  lemma Recorded(s: State, history: seq<Action>, w: nat, cfg: Config, a: Action)
    requires !a.Claim?
    ensures Step(s, a).limits == s.limits
    ensures s == Run(Initial(s.limits), history) ==> Step(s, a) == Run(Initial(s.limits), history + [a])
    ensures ClaimsAs(w, cfg, history) ==> ClaimsAs(w, cfg, history + [a])
  {
    StepGrows(s, a);
    RunOneMore(Initial(s.limits), history, a);
  }

  lemma {:induction false} MappedClaimsAs(w: nat, cfg: Config, run: seq<QueueAction>)
    ensures ClaimsAs(w, cfg, MappedAll(w, cfg, run))
    decreases |run|
  {
    if run != [] {
      MappedClaimsAs(w, cfg, run[..|run| - 1]);
    }
  }

  /** The steps a claim consists of. */
  predicate OnlyClaims(trace: seq<Action>) {
    forall a :: a in trace ==> a.Claim? || a.Reclaim? || a.Quarantine? || a.Stick?
  }

  lemma {:induction false} MappedOnlyClaims(w: nat, cfg: Config, run: seq<QueueAction>, now: real)
    requires SpoolRefinement.Moments(run, now)
    ensures OnlyClaims(MappedAll(w, cfg, run))
    decreases |run|
  {
    if run != [] {
      MappedOnlyClaims(w, cfg, run[..|run| - 1], now);
      assert SpoolRefinement.AtMoment(run[|run| - 1], now);
    }
  }

  /** The claim's answer is the queue's: the first message that may be handed out after the
      sweep, with whatever went wrong on the way. */
  ghost predicate ClaimAnswers(before: View<Job>, later: View<Job>, now: real, visibility: real, cap: nat,
                               unmovable: set<string>, faults: map<string, Fault>,
                               r: Result<Option<Handle<Job>>, QueueError>) {
    exists swept: View<Job>, stop: Option<nat> ::
      && |swept.msgs| == |before.msgs| == |swept.names| == |before.names| && swept.names == before.names
      && (forall i :: 0 <= i < |swept.msgs| ==>
            swept.msgs[i] == Swept(before.msgs[i], now, visibility, swept.names[i] in unmovable))
      && Scanned(swept, later, stop, now, cap, faults) && Leases(swept, later, stop, now, cap, faults, r)
  }

  lemma ExtendAll(s: State, trace: seq<Action>, rest: seq<Action>, t: State, w: nat) returns (longer: seq<Action>)
    requires OwnSteps(w, trace) && OwnSteps(w, rest) && t == Run(Run(s, trace), rest)
    ensures longer == trace + rest && OwnSteps(w, longer) && t == Run(s, longer)
  {
    longer := trace + rest;
    RunAppend(s, trace, rest);
  }

  lemma ExecuteShape(s: State, w: nat, ran: Ran, benched: Outcome)
    requires In(s, w) && s.passes[w].phase.ToExecute?
    ensures var p := s.passes[w];
            var t := Step(s, Execute(w, ran, benched));
            var result := Given(RawResult(p.job, ran, benched), p.lease.attempt, s.limits.cap);
            t == s.(runs := t.runs,
                    passes := s.passes[w := p.(phase :=
                      if p.cfg.produce && Readable(p) && result.outcome.status != Retryable
                      then ToPersist(result) else ToReport(result))])
  {
    hide Given, RawResult;
  }

  lemma PersistShape(s: State, w: nat, leaf: nat, write: Write)
    requires In(s, w) && s.passes[w].phase.ToPersist? && s.passes[w].job.token.Some?
    requires Key(s.passes[w].job.jobId, Saved(s.passes[w].job.token.value, leaf)) !in s.store
    ensures var p := s.passes[w];
            var artifact := Saved(p.job.token.value, leaf);
            var e := Enveloped(p.job, p.phase.result, p.cfg, s.origins[p.lease.id].tier, p.lease.attempt, s.now);
            Step(s, Persist(w, leaf, write))
            == s.(store := if write == NotWritten then s.store else s.store[Key(p.job.jobId, artifact) := Envelop(e)],
                  passes := if write == Written then s.passes[w := p.(phase := ToDeliver(artifact, e))]
                            else s.passes - {w})
  {
    hide Enveloped;
  }

  lemma ReportShape(s: State, w: nat, result: JobResult, arrives: bool, acked: bool)
    requires In(s, w) && s.passes[w].phase == ToReport(result) && (acked ==> arrives)
    ensures var p := s.passes[w];
            var t := Step(s, Upload(w, arrives, acked));
            var given := Given(result, p.lease.attempt, s.limits.cap);
            t == s.(uploads := t.uploads,
                    passes := s.passes[w := p.(phase :=
                      if given.outcome.status == Retryable || (p.cfg.enabled && !acked) then ToRelease else ToComplete)])
  {
  }

  lemma ClaimTrace(s: State, w: nat, cfg: Config, msgs: seq<Msg<Job>>, swept: View<Job>, left: View<Job>,
                   stop: Option<nat>, now: real, unmovable: set<string>, faults: map<string, Fault>,
                   r: Result<Option<Handle<Job>>, QueueError>)
    returns (trace: seq<Action>)
    requires msgs == s.msgs && now == s.now && w !in s.passes && ConfigOk(cfg)
    requires |swept.msgs| == |msgs| == |swept.names| == |swept.origins|
    requires forall i :: 0 <= i < |msgs| ==>
               swept.msgs[i] == Swept(msgs[i], now, s.limits.visibility, swept.names[i] in unmovable)
    requires Scanned(swept, left, stop, now, s.limits.cap, faults)
    requires Leases(swept, left, stop, now, s.limits.cap, faults, r)
    ensures ClaimsAs(w, cfg, trace) && OnlyClaims(trace) && |left.msgs| == |msgs|
    ensures r.Ok? && r.value.Some? ==>
              stop.Some? && stop.value < |msgs| && msgs[stop.value].body == Some(r.value.value.job)
    ensures Claimed(s, Run(s, trace), w, cfg, left.msgs,
                    if r.Ok? && r.value.Some? then Some(Lease(stop.value, r.value.value.attempt)) else None)
  {
    var q := LeaseRuns.Queue(msgs, []);
    var stuck := seq(|msgs|, i requires 0 <= i < |msgs| => swept.names[i] in unmovable);
    SpoolRefinement.ClaimIsARun(q, s.limits, swept, left, stop, now, stuck, faults, r);
    var lease := if r.Ok? && r.value.Some? then Some(Lease(stop.value, r.value.value.attempt)) else None;
    var run :| SpoolRefinement.Moments(run, now) && LeaseRuns.Run(q, s.limits, run) == LeaseRuns.Queue(left.msgs,
                 q.leases + if r.Ok? && r.value.Some? then [Lease(stop.value, r.value.value.attempt)] else []);
    trace := MappedAll(w, cfg, run);
    RunMapped(s, q, w, cfg, run, lease);
    MappedClaimsAs(w, cfg, run);
    MappedOnlyClaims(w, cfg, run, now);
  }

  lemma DeliverShape(s: State, w: nat)
    requires In(s, w) && s.passes[w].phase.ToDeliver?
    ensures var p := s.passes[w];
            var artifact, e := p.phase.artifact, p.phase.envelope;
            Step(s, Protocol.Deliver(w)) == s.(passes :=
              match StateOf(p.job, p.lease.attempt, artifact, e)
              case None => s.passes - {w}
              case Some(st) =>
                var t := Turn(artifact, e, st, AttemptNo(st, p.job.delivery.Some?, p.lease.attempt), p.cfg.maxRounds,
                              Min(st.maxRounds, p.cfg.maxRounds), s.now);
                s.passes[w := p.(phase := if Over(t) then ToPublish(t) else Uploading(t))])
  {
  }

  lemma UploadShape(s: State, w: nat, turn: Turn, arrives: bool, acked: bool)
    requires In(s, w) && s.passes[w].phase == Uploading(turn) && (acked ==> arrives)
    ensures var t := Step(s, Upload(w, arrives, acked));
            t == s.(uploads := t.uploads,
                    passes := s.passes[w := s.passes[w].(phase := if acked then ToComplete else ToPublish(turn))])
  {
  }

  /** The message a turn publishes. */
  function MarkerSent(turn: Turn, now: real): Msg<Job> {
    Fresh(Some(Message(turn.envelope, Next(turn))), Some(DueAt(now, DelayOf(Next(turn)))), Next(turn).exhausted, now)
  }

  function Recoverable(files: map<Key, Blob>, key: Key): Option<Envelope> {
    if key !in files || !files[key].Envelop? then None
    else
      var e := Delivery.Load(files, files[key].envelope.job, key.artifact);
      if e.Some? && e.value.job.jobId == key.jobId then e else None
  }

  function NewWindow(artifact: Artifact, now: real, cfg: Config): DeliveryState {
    DeliveryState(artifact, 0, now + cfg.window, cfg.maxRounds, false)
  }

  lemma RecoverRefused(s: State, key: Key, cfg: Config, write: Write)
    requires ConfigOk(cfg)
    ensures Recoverable(s.store, key).None? || !cfg.enabled || write == NotWritten ==>
              Step(s, Protocol.Recover(key, cfg, write)) == s
  {
  }

  lemma RecoverShape(s: State, key: Key, cfg: Config, write: Write)
    requires ConfigOk(cfg) && cfg.enabled && Recoverable(s.store, key).Some?
    ensures var t := Step(s, Protocol.Recover(key, cfg, write));
            var e := Recoverable(s.store, key).value;
            && t.msgs == (if write == NotWritten then s.msgs
                          else s.msgs + [Fresh(Some(Message(e, NewWindow(key.artifact, s.now, cfg))), Some(DueAt(s.now, 0)),
                                               false, s.now)])
            && (|s.origins| == |s.msgs| ==> |t.origins| == |t.msgs|)
            && t.store == s.store && t.limits == s.limits && t.now == s.now && t.passes == s.passes
            && (OneTier(s) && e.tier == "" ==> OneTier(t))
  {
  }

  lemma SubmitShape(s: State, w: nat, cfg: Config, now: real, body: Option<Job>, due: Option<nat>, trace: seq<Action>)
    requires s.now <= now && |s.origins| == |s.msgs| && OneTier(s)
    requires trace == [Tick(now)] || trace == [Tick(now), Protocol.Submit(body, due, "")]
    ensures var t := Run(s, trace);
            && t.msgs == s.msgs + (if |trace| == 1 then [] else [Fresh(body, due, false, now)])
            && t.store == s.store && t.limits == s.limits && t.now == now && t.passes == s.passes
            && |t.origins| == |t.msgs| && OneTier(t) && ClaimsAs(w, cfg, trace)
  {
    assert Run(s, trace[..0]) == s;
    UnrollOne(s, trace, 0);
    if |trace| == 1 {
      assert trace[..1] == trace;
    } else {
      UnrollOne(s, trace, 1);
      assert trace[..2] == trace;
    }
  }

  /** What a lookup finds out about a job. */
  ghost function StageOf(files: map<Key, Blob>, job: Job, cfg: Config, ok: bool): Stage {
    var readable := cfg.enabled && job.token.Some?;
    if job.delivery.Some? then
      if !readable || !ok || ParseMarker(job.delivery.value).None? then Leave
      else
        var artifact := ParseMarker(job.delivery.value).value.artifact;
        var e := Delivery.Load(files, job, artifact);
        if e.Some? then Resend(artifact, e.value) else Leave
    else if !readable then Judge
    else if !ok then Leave
    else
      match Delivery.Find(files, job)
      case Nothing => Judge
      case Hit(artifact, e) => Resend(artifact, e)
      case Unreadable => Leave
  }

  lemma LookupShape(s: State, w: nat, ok: bool)
    requires In(s, w) && s.passes[w].phase.Started? && !Misrouted(s.passes[w])
    ensures var p := s.passes[w];
            Step(s, Lookup(w, ok)) == s.(passes :=
              match StageOf(s.store, p.job, p.cfg, ok)
              case Leave => s.passes - {w}
              case Judge => s.passes[w := p.(phase := ToExecute)]
              case Resend(artifact, e) => s.passes[w := p.(phase := ToDeliver(artifact, e))])
  {
  }

  lemma PublishShape(s: State, w: nat, turn: Turn, write: Write)
    requires In(s, w) && s.passes[w].phase == ToPublish(turn)
    ensures var t := Step(s, Publish(w, write));
            && t.msgs == (if write == NotWritten then s.msgs else s.msgs + [MarkerSent(turn, s.now)])
            && t.store == s.store && t.limits == s.limits && t.now == s.now
            && (if write == NotWritten then t.origins == s.origins
                else |t.origins| == |s.origins| + 1)
            && (OneTier(s) && turn.envelope.tier == "" ==> OneTier(t))
            && t.passes == if write == Written then s.passes[w := s.passes[w].(phase := ToComplete)] else s.passes - {w}
  {
  }

  lemma ReleaseShape(s: State, w: nat, ok: bool)
    requires In(s, w) && s.passes[w].phase.ToRelease?
    ensures var l := s.passes[w].lease;
            Step(s, Release(w, ok))
            == s.(passes := s.passes - {w},
                  msgs := if ok then s.msgs[l.id := Released(s.msgs[l.id], l.attempt)] else s.msgs)
  {
  }

  lemma CompleteShape(s: State, w: nat, ok: bool)
    requires In(s, w) && s.passes[w].phase.ToComplete?
    ensures var l := s.passes[w].lease;
            Step(s, Complete(w, ok))
            == s.(passes := s.passes - {w},
                  msgs := if ok then s.msgs[l.id := Completed(s.msgs[l.id], l.attempt)] else s.msgs)
  {
  }

  lemma MillisNatural(now: real, delay: nat)
    requires now >= 0.0
    ensures Millis(now + delay as real) >= 0 && DueAt(now, delay) == Millis(now + delay as real)
  {
  }

  /** The files of a worker that has served alone hold at most one envelope for each job
      attempt, whatever failed. */
  lemma AloneSavesOnce(wk: Worker, k: Key, k': Key)
    requires wk.Valid() && wk.Faithful() && wk.w == 0
    requires k in wk.store.files && k' in wk.store.files && wk.store.files[k].Envelop? && wk.store.files[k'].Envelop?
    requires NoRejudging.SamePlace(k, k')
    ensures k == k'
  {
    forall n | 0 <= n < |wk.history|
      ensures NoRejudging.Solo(wk.history[n])
    {
      assert wk.history[n] in wk.history;
    }
    NoRejudging.OneEnvelopePerAttempt(wk.world.limits, wk.history, k, k');
  }

  /** And with the control plane enabled, whatever was ever published on its queue is there,
      or was delivered, or lives on in a successor: a job that is gone has its verdict with
      the plane, or a message in the queue that refers to its saved callback. */
  lemma AloneLosesNothing(wk: Worker, i: nat)
    requires wk.Valid() && wk.Faithful() && wk.cfg.enabled
    requires i < |wk.queue.Msgs()|
    ensures NothingLost.Safe(wk.world, i)
    ensures wk.queue.Msgs()[i].body.Some? ==>
              || wk.queue.Msgs()[i].place != Done
              || NothingLost.Vouched(wk.world, i, IdentOf(wk.queue.Msgs()[i].body.value))
  {
    forall n | 0 <= n < |wk.history|
      ensures NothingLost.Enabled(wk.history[n])
    {
      assert wk.history[n] in wk.history;
    }
    NothingLost.NoVerdictIsLost(wk.world.limits, wk.history, i);
  }
}
