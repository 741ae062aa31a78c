/**
 What every reachable state of the protocol satisfies: each pass, message,
 upload and execution can be traced to what it came from.
 */
module Invariants {
  import opened Wrappers
  import opened Numbers
  import opened LeaseQueue
  import opened Executor
  import opened Delivery
  import opened Protocol

  // ---- what only ever grows ---------------------------------------------

  predicate Live(s: State, i: nat) { i < |s.msgs| && s.msgs[i].place != Done }

  /** The same message later: no fewer receives, and as it was if dead. */
  predicate Later(m: Msg<Job>, m': Msg<Job>) {
    m'.body == m.body && m'.due == m.due && m.attempts <= m'.attempts && (m.place == Dead ==> m' == m)
  }

  /** No step forgets a message, an artifact, a callback or an entry of the log. */
  ghost predicate Grows(s: State, t: State) {
    && t.limits == s.limits && s.now <= t.now
    && |s.msgs| <= |t.msgs| && (forall i :: 0 <= i < |s.msgs| ==> Later(s.msgs[i], t.msgs[i]))
    && s.origins <= t.origins && s.runs <= t.runs && s.uploads <= t.uploads
    && (forall k :: k in s.store ==> k in t.store && t.store[k] == s.store[k])
  }

  ghost predicate LiveKept(s: State, t: State) {
    && (forall i :: 0 <= i < |s.msgs| && Live(s, i) ==> Live(t, i))
    && (forall i :: |s.msgs| <= i < |t.msgs| ==> Live(t, i))
  }

  /** Nothing but passes and logs may differ. */
  ghost predicate Quiet(s: State, t: State) {
    && t.msgs == s.msgs && t.origins == s.origins && t.store == s.store && t.limits == s.limits && t.now == s.now
    && s.runs <= t.runs && s.uploads <= t.uploads
  }

  lemma QuietGrows(s: State, t: State)
    requires Quiet(s, t)
    ensures Grows(s, t) && LiveKept(s, t)
  {
  }

  lemma WorldGrows(s: State, a: Action)
    ensures Grows(s, DoWorld(s, a)) && LiveKept(s, DoWorld(s, a))
  {
  }

  lemma ClaimGrows(s: State, w: nat, i: nat, cfg: Config)
    ensures Grows(s, DoClaim(s, w, i, cfg)) && LiveKept(s, DoClaim(s, w, i, cfg))
  {
  }

  lemma PersistGrows(s: State, w: nat, leaf: nat, write: Write)
    ensures Grows(s, DoPersist(s, w, leaf, write)) && LiveKept(s, DoPersist(s, w, leaf, write))
  {
  }

  lemma UploadIsQuiet(s: State, w: nat, arrives: bool, acked: bool)
    ensures Quiet(s, DoUpload(s, w, arrives, acked))
  {
  }

  lemma PublishGrows(s: State, w: nat, write: Write)
    ensures Grows(s, DoPublish(s, w, write)) && LiveKept(s, DoPublish(s, w, write))
  {
  }

  lemma ReleaseGrows(s: State, w: nat, ok: bool)
    ensures Grows(s, DoRelease(s, w, ok)) && LiveKept(s, DoRelease(s, w, ok))
  {
  }

  lemma CompleteGrows(s: State, w: nat, ok: bool)
    ensures Grows(s, DoComplete(s, w, ok))
  {
  }

  lemma LookupIsQuiet(s: State, w: nat, ok: bool)
    ensures Quiet(s, DoLookup(s, w, ok)) && Quiet(s, DoDeliver(s, w))
  {
    hide Load, Find, StateOf, Spent;
  }

  lemma ExecuteIsQuiet(s: State, w: nat, ran: Ran, benched: Outcome)
    ensures Quiet(s, DoExecute(s, w, ran, benched))
  {
    hide Given, RawResult;
  }

  lemma RestIsQuiet(s: State, a: Action)
    requires a.Crash? || a.Panic? || a.Misroute? || a.Lookup? || a.Execute? || a.Deliver?
    ensures Quiet(s, Step(s, a))
  {
    hide DoWorld, DoClaim, DoLookup, DoExecute, DoPersist, DoDeliver, DoUpload, DoPublish, DoComplete, DoRelease;
    match a
    case Lookup(w, ok) => LookupIsQuiet(s, w, ok);
    case Deliver(w) => LookupIsQuiet(s, w, true);
    case Execute(w, ran, benched) => ExecuteIsQuiet(s, w, ran, benched);
    case _ =>
  }

  lemma StepGrows(s: State, a: Action)
    ensures Grows(s, Step(s, a))
    ensures !a.Complete? ==> LiveKept(s, Step(s, a))
  {
    hide Grows, LiveKept, DoClaim, DoPersist, DoUpload, DoPublish, DoComplete, DoRelease, DoLookup, DoExecute, DoDeliver;
    match a
    case Claim(w, i, cfg) => ClaimGrows(s, w, i, cfg);
    case Persist(w, leaf, write) => PersistGrows(s, w, leaf, write);
    case Upload(w, arrives, acked) =>
      UploadIsQuiet(s, w, arrives, acked);
      QuietGrows(s, DoUpload(s, w, arrives, acked));
    case Publish(w, write) => PublishGrows(s, w, write);
    case Complete(w, ok) => CompleteGrows(s, w, ok);
    case Release(w, ok) => ReleaseGrows(s, w, ok);
    case _ =>
      if a.Crash? || a.Panic? || a.Misroute? || a.Lookup? || a.Execute? || a.Deliver? {
        RestIsQuiet(s, a);
        QuietGrows(s, Step(s, a));
      } else {
        WorldGrows(s, a);
      }
  }

  // ---- what each thing in the state rests on ----------------------------

  ghost predicate BodyIs(s: State, l: Lease, job: Job) {
    l.id < |s.msgs| && l.id < |s.origins| && s.msgs[l.id].body == Some(job)
    && 1 <= l.attempt <= s.msgs[l.id].attempts
  }

  /** The envelope is the stored one of this very job attempt, and if the job is a
      marker then it is the one the marker names. */
  ghost predicate Carries(s: State, job: Job, artifact: Artifact, e: Envelope) {
    Load(s.store, job, artifact) == Some(e)
    && (job.delivery.Some? ==>
          ParseMarker(job.delivery.value).Some? && ParseMarker(job.delivery.value).value.artifact == artifact)
  }

  /** The turn is what the delivery of this lease decides on. */
  ghost predicate TurnOk(s: State, job: Job, attempt: nat, t: Turn) {
    && Carries(s, job, t.artifact, t.envelope)
    && StateOf(job, attempt, t.artifact, t.envelope) == Some(t.state)
    && t.number == AttemptNo(t.state, job.delivery.Some?, attempt)
    && t.maximum == Min(t.state.maxRounds, t.ceiling)
  }

  /** The payload was computed from a logged, final execution. */
  ghost predicate FromRun(s: State, payload: Payload) {
    exists n :: 0 <= n < |s.runs| && payload == PayloadOf(s.runs[n].result, s.runs[n].cfg.uid)
                && s.runs[n].result.outcome.status != Retryable
  }

  ghost predicate ResultLogged(s: State, p: Pass, r: JobResult) {
    && r.jobId == p.job.jobId && r.token == p.job.token && p.job.delivery.None?
    && exists n :: 0 <= n < |s.runs| && s.runs[n].result == r && s.runs[n].cfg == p.cfg && s.runs[n].lease == p.lease
  }

  /** No callback of the job was stored when the pass began. */
  predicate NoneSeen(job: Job, seen: set<Key>) {
    job.delivery.None? && (job.token.Some? ==> forall k :: k in seen ==> !IsAttemptKey(k, job.jobId, job.token.value))
  }

  /** What a pass knows at each point. */
  ghost predicate PassOk(s: State, p: Pass) {
    && BodyIs(s, p.lease, p.job) && ConfigOk(p.cfg) && p.seen <= s.store.Keys
    && match p.phase
       case ToDeliver(artifact, e) => Carries(s, p.job, artifact, e)
       case Uploading(t) =>
         TurnOk(s, p.job, p.lease.attempt, t) && !Over(t) && t.readAt <= s.now && t.ceiling == p.cfg.maxRounds
       case ToPublish(t) =>
         TurnOk(s, p.job, p.lease.attempt, t) && t.readAt <= s.now && t.ceiling == p.cfg.maxRounds
       case ToExecute => p.job.delivery.None? && (Readable(p) ==> NoneSeen(p.job, p.seen))
       case ToPersist(r) => ResultLogged(s, p, r) && r.outcome.status != Retryable && p.job.token.Some?
       case ToReport(r) => ResultLogged(s, p, r)
       case _ => true
  }

  ghost predicate MessageOk(s: State, i: nat)
    requires i < |s.msgs| && i < |s.origins|
  {
    match s.origins[i].birth
    case External => true
    case Recovery =>
      s.msgs[i].body.Some? && s.msgs[i].body.value.delivery.Some? && s.msgs[i].body.value.delivery.value.Fields?
      && Load(s.store, s.msgs[i].body.value, s.msgs[i].body.value.delivery.value.state.artifact).Some?
      && Load(s.store, s.msgs[i].body.value, s.msgs[i].body.value.delivery.value.state.artifact).value.tier
         == s.origins[i].tier
      && s.msgs[i].body.value.delivery.value.state.round == 0
    case Born(parent, attempt, t, sentAt) =>
      parent < i && s.msgs[parent].body.Some? && BodyIs(s, Lease(parent, attempt), s.msgs[parent].body.value)
      && TurnOk(s, s.msgs[parent].body.value, attempt, t)
      && s.msgs[i].body == Some(Message(t.envelope, Next(t)))
      && s.origins[i].tier == t.envelope.tier
      && (Next(t).exhausted ==> s.msgs[i].place == Dead && s.msgs[i].attempts == 0)
      && t.readAt <= sentAt && s.msgs[i].due == Some(DueAt(sentAt, DelayOf(Next(t))))
  }

  ghost predicate UploadOk(s: State, u: UploadEvent) {
    && u.lease.id < |s.msgs| && s.msgs[u.lease.id].body.Some?
    && var job := s.msgs[u.lease.id].body.value;
       BodyIs(s, u.lease, job) && FromRun(s, PayloadSent(u))
       && PayloadSent(u).jobUid == job.jobId && PayloadSent(u).token == job.token
       && (u.Replay? ==> TurnOk(s, job, u.lease.attempt, u.turn) && !Over(u.turn))
       && (u.Direct? ==> job.delivery.None?)
  }

  ghost predicate BlobOk(s: State, b: Blob) {
    b.Envelop? ==> FromRun(s, b.envelope.payload) && EnvelopeOk(b.envelope)
  }

  /** An execution is of a source job, and with the control plane enabled of one
      that had no callback stored when its pass began. */
  ghost predicate RunOk(s: State, r: RunEvent) {
    && BodyIs(s, r.lease, r.job) && r.job.delivery.None?
    && (r.cfg.enabled && r.job.token.Some? ==> NoneSeen(r.job, r.seen))
    && r.result == Given(RawResult(r.job, r.ran, r.benched), r.lease.attempt, s.limits.cap)
  }

  ghost predicate PassesOk(s: State) { forall w :: w in s.passes ==> PassOk(s, s.passes[w]) }
  ghost predicate MessagesOk(s: State) {
    |s.origins| == |s.msgs| && forall i :: 0 <= i < |s.msgs| ==> MessageOk(s, i)
  }
  ghost predicate UploadsOk(s: State) { forall n :: 0 <= n < |s.uploads| ==> UploadOk(s, s.uploads[n]) }
  ghost predicate StoreOk(s: State) { forall k :: k in s.store ==> BlobOk(s, s.store[k]) }
  ghost predicate RunsOk(s: State) { forall n :: 0 <= n < |s.runs| ==> RunOk(s, s.runs[n]) }

  ghost predicate Inv(s: State) { PassesOk(s) && MessagesOk(s) && UploadsOk(s) && StoreOk(s) && RunsOk(s) }

  // ---- growth keeps it --------------------------------------------------

  lemma BodyKept(s: State, t: State, l: Lease, job: Job)
    requires Grows(s, t) && BodyIs(s, l, job)
    ensures BodyIs(t, l, job)
  {
    assert Later(s.msgs[l.id], t.msgs[l.id]);
  }

  lemma LoadKept(s: State, t: State, job: Job, artifact: Artifact)
    requires Grows(s, t) && Load(s.store, job, artifact).Some?
    ensures Load(t.store, job, artifact) == Load(s.store, job, artifact)
  {
  }

  lemma TurnKept(s: State, t: State, job: Job, attempt: nat, turn: Turn)
    requires Grows(s, t) && TurnOk(s, job, attempt, turn)
    ensures TurnOk(t, job, attempt, turn)
  {
    LoadKept(s, t, job, turn.artifact);
  }

  lemma FromRunKept(s: State, t: State, payload: Payload)
    requires Grows(s, t) && FromRun(s, payload)
    ensures FromRun(t, payload)
  {
    var n :| 0 <= n < |s.runs| && payload == PayloadOf(s.runs[n].result, s.runs[n].cfg.uid)
             && s.runs[n].result.outcome.status != Retryable;
    assert t.runs[n] == s.runs[n];
  }

  lemma LoggedKept(s: State, t: State, p: Pass, r: JobResult)
    requires Grows(s, t) && ResultLogged(s, p, r)
    ensures ResultLogged(t, p, r)
  {
    var n :| 0 <= n < |s.runs| && s.runs[n].result == r && s.runs[n].cfg == p.cfg && s.runs[n].lease == p.lease;
    assert t.runs[n] == s.runs[n];
  }

  lemma PassKept(s: State, t: State, p: Pass)
    requires Grows(s, t) && PassOk(s, p)
    ensures PassOk(t, p)
  {
    BodyKept(s, t, p.lease, p.job);
    match p.phase
    case ToDeliver(artifact, e) => LoadKept(s, t, p.job, artifact);
    case Uploading(turn) => TurnKept(s, t, p.job, p.lease.attempt, turn);
    case ToPublish(turn) => TurnKept(s, t, p.job, p.lease.attempt, turn);
    case ToPersist(r) => LoggedKept(s, t, p, r);
    case ToReport(r) => LoggedKept(s, t, p, r);
    case _ =>
  }

  lemma MessageKept(s: State, t: State, i: nat)
    requires Grows(s, t) && i < |s.msgs| && i < |s.origins| && MessageOk(s, i)
    ensures MessageOk(t, i)
  {
    assert Later(s.msgs[i], t.msgs[i]);
    match s.origins[i].birth
    case External =>
    case Recovery => LoadKept(s, t, s.msgs[i].body.value, s.msgs[i].body.value.delivery.value.state.artifact);
    case Born(parent, attempt, turn, sentAt) =>
      BodyKept(s, t, Lease(parent, attempt), s.msgs[parent].body.value);
      TurnKept(s, t, s.msgs[parent].body.value, attempt, turn);
  }

  lemma UploadKept(s: State, t: State, u: UploadEvent)
    requires Grows(s, t) && UploadOk(s, u)
    ensures UploadOk(t, u)
  {
    var job := s.msgs[u.lease.id].body.value;
    BodyKept(s, t, u.lease, job);
    FromRunKept(s, t, PayloadSent(u));
    if u.Replay? {
      TurnKept(s, t, job, u.lease.attempt, u.turn);
    }
  }

  lemma BlobKept(s: State, t: State, b: Blob)
    requires Grows(s, t) && BlobOk(s, b)
    ensures BlobOk(t, b)
  {
    if b.Envelop? {
      FromRunKept(s, t, b.envelope.payload);
    }
  }

  lemma RunKept(s: State, t: State, r: RunEvent)
    requires Grows(s, t) && RunOk(s, r)
    ensures RunOk(t, r)
  {
    BodyKept(s, t, r.lease, r.job);
  }

  /** Everything that was there is still accounted for: only what is new is left. */
  lemma InvKept(s: State, t: State)
    requires Inv(s) && Grows(s, t) && |t.origins| == |t.msgs|
    requires forall w :: w in t.passes && !(w in s.passes && t.passes[w] == s.passes[w]) ==> PassOk(t, t.passes[w])
    requires forall i :: |s.msgs| <= i < |t.msgs| ==> MessageOk(t, i)
    requires forall n :: |s.uploads| <= n < |t.uploads| ==> UploadOk(t, t.uploads[n])
    requires forall n :: |s.runs| <= n < |t.runs| ==> RunOk(t, t.runs[n])
    requires forall k :: k in t.store && k !in s.store ==> BlobOk(t, t.store[k])
    ensures Inv(t)
  {
    assert PassesOk(t) by {
      forall w | w in t.passes ensures PassOk(t, t.passes[w]) {
        if w in s.passes && t.passes[w] == s.passes[w] { PassKept(s, t, s.passes[w]); }
      }
    }
    assert MessagesOk(t) by {
      forall i | 0 <= i < |t.msgs| ensures MessageOk(t, i) {
        if i < |s.msgs| { MessageKept(s, t, i); }
      }
    }
    assert UploadsOk(t) by {
      forall n | 0 <= n < |t.uploads| ensures UploadOk(t, t.uploads[n]) {
        if n < |s.uploads| { UploadKept(s, t, s.uploads[n]); }
      }
    }
    assert RunsOk(t) by {
      forall n | 0 <= n < |t.runs| ensures RunOk(t, t.runs[n]) {
        if n < |s.runs| { RunKept(s, t, s.runs[n]); }
      }
    }
    assert StoreOk(t) by {
      forall k | k in t.store ensures BlobOk(t, t.store[k]) {
        if k in s.store { BlobKept(s, t, s.store[k]); }
      }
    }
  }

  // ---- each step keeps it -----------------------------------------------

  lemma ClaimKeeps(s: State, w: nat, i: nat, cfg: Config)
    requires Inv(s)
    ensures Inv(DoClaim(s, w, i, cfg))
  {
    hide Inv;
    OneOriginEach(s);
    ClaimGrows(s, w, i, cfg);
    InvKept(s, DoClaim(s, w, i, cfg));
  }

  /** One pass moves on, or ends, and nothing else changes. */
  ghost predicate Moved(s: State, t: State, w: nat) {
    t == s.(passes := t.passes) && forall v :: v in t.passes && v != w ==> v in s.passes && t.passes[v] == s.passes[v]
  }

  lemma PassOf(s: State, w: nat)
    requires Inv(s) && w in s.passes
    ensures PassOk(s, s.passes[w])
  {
  }

  lemma OneOriginEach(s: State)
    requires Inv(s)
    ensures |s.origins| == |s.msgs|
  {
  }

  lemma MovedKeeps(s: State, t: State, w: nat)
    requires Inv(s) && Moved(s, t, w) && (w in t.passes ==> PassOk(s, t.passes[w]))
    ensures Inv(t)
  {
    hide Inv, PassOk;
    OneOriginEach(s);
    QuietGrows(s, t);
    if w in t.passes {
      PassKept(s, t, t.passes[w]);
    }
    InvKept(s, t);
  }

  /** A source with no saved callback is not looked up as one that has. */
  lemma NothingFound(s: State, p: Pass)
    requires Readable(p) && p.job.delivery.None? && Find(s.store, p.job) == Nothing && p.seen <= s.store.Keys
    ensures NoneSeen(p.job, p.seen)
  {
    var keys := AttemptKeys(s.store, p.job.jobId, p.job.token.value);
    forall k | k in p.seen
      ensures !IsAttemptKey(k, p.job.jobId, p.job.token.value)
    {
      assert k in s.store;
      assert k !in keys;
    }
  }

  lemma FoundIsLoaded(store: map<Key, Blob>, job: Job)
    ensures var f := Find(store, job); f.Hit? ==> Load(store, job, f.artifact) == Some(f.envelope)
  {
  }

  lemma LookupKeeps(s: State, w: nat, ok: bool)
    requires Inv(s)
    ensures Inv(DoLookup(s, w, ok))
  {
    hide Inv;
    var t := DoLookup(s, w, ok);
    if w in s.passes {
      var p := s.passes[w];
      PassOf(s, w);
      FoundIsLoaded(s.store, p.job);
      if Readable(p) && p.job.delivery.None? && Find(s.store, p.job) == Nothing {
        NothingFound(s, p);
      }
    }
    assert Moved(s, t, w);
    MovedKeeps(s, t, w);
  }

  lemma ExecuteKeeps(s: State, w: nat, ran: Ran, benched: Outcome)
    requires Inv(s)
    ensures Inv(DoExecute(s, w, ran, benched))
  {
    hide Inv;
    OneOriginEach(s);
    var t := DoExecute(s, w, ran, benched);
    if In(s, w) && s.passes[w].phase.ToExecute? {
      var p := s.passes[w];
      PassOf(s, w);
      assert Quiet(s, t);
      QuietGrows(s, t);
      BodyKept(s, t, p.lease, p.job);
      var n := |s.runs|;
      assert t.runs[n].result == t.passes[w].phase.result && t.runs[n].lease == p.lease && t.runs[n].cfg == p.cfg;
      assert ResultLogged(t, t.passes[w], t.passes[w].phase.result);
      assert RunOk(t, t.runs[n]);
      InvKept(s, t);
    }
  }

  lemma EnvelopedOk(s: State, t: State, p: Pass, tier: string, leaf: nat)
    requires Grows(s, t) && PassOk(s, p) && p.phase.ToPersist?
    requires t.store == s.store[Key(p.job.jobId, Saved(p.job.token.value, leaf))
                                := Envelop(Enveloped(p.job, p.phase.result, p.cfg, tier, p.lease.attempt, s.now))]
    ensures var e := Enveloped(p.job, p.phase.result, p.cfg, tier, p.lease.attempt, s.now);
            BlobOk(t, Envelop(e)) && Carries(t, p.job, Saved(p.job.token.value, leaf), e)
  {
    var r := p.phase.result;
    var n :| 0 <= n < |s.runs| && s.runs[n].result == r && s.runs[n].cfg == p.cfg && s.runs[n].lease == p.lease;
    assert t.runs[n] == s.runs[n];
    PersistedIsLoadable(s.store, p.job, r, p.cfg, tier, p.lease.attempt, s.now, leaf,
                        DeliveryState(Saved(p.job.token.value, leaf), 0, 0.0, 1, false));
  }

  lemma PersistStores(s: State, w: nat, leaf: nat, write: Write)
    requires Inv(s) && In(s, w) && s.passes[w].phase.ToPersist? && write != NotWritten
    requires s.passes[w].job.token.Some?
    requires Key(s.passes[w].job.jobId, Saved(s.passes[w].job.token.value, leaf)) !in s.store
    ensures Inv(DoPersist(s, w, leaf, write))
  {
    hide Inv, Grows;
    var p := s.passes[w];
    var tier := s.origins[p.lease.id].tier;
    var artifact := Saved(p.job.token.value, leaf);
    var e := Enveloped(p.job, p.phase.result, p.cfg, tier, p.lease.attempt, s.now);
    var mid := s.(store := s.store[Key(p.job.jobId, artifact) := Envelop(e)]);
    var t := if write == Written then Goto(mid, w, ToDeliver(artifact, e)) else Abandon(mid, w);
    PassOf(s, w);
    PersistGrows(s, w, leaf, write);
    EnvelopedOk(s, t, p, tier, leaf);
    PassKept(s, t, p);
    StoredKeeps(s, t, w);
  }

  lemma PersistKeeps(s: State, w: nat, leaf: nat, write: Write)
    requires Inv(s)
    ensures Inv(DoPersist(s, w, leaf, write))
  {
    hide Inv;
    var t := DoPersist(s, w, leaf, write);
    if t.store == s.store {
      if w in s.passes {
        PassOf(s, w);
      }
      assert Moved(s, t, w);
      MovedKeeps(s, t, w);
    } else {
      PersistStores(s, w, leaf, write);
    }
  }

  /** One artifact is added, and the pass that wrote it moves on or ends. */
  lemma StoredKeeps(s: State, t: State, w: nat)
    requires Inv(s) && Grows(s, t) && Moved(s.(store := t.store), t, w)
    requires w in t.passes ==> PassOk(t, t.passes[w])
    requires forall k :: k in t.store && k !in s.store ==> BlobOk(t, t.store[k])
    ensures Inv(t)
  {
    hide Inv;
    OneOriginEach(s);
    InvKept(s, t);
  }

  lemma DeliverKeeps(s: State, w: nat)
    requires Inv(s)
    ensures Inv(DoDeliver(s, w))
  {
    hide Inv;
    var t := DoDeliver(s, w);
    assert Moved(s, t, w);
    if w in s.passes {
      PassOf(s, w);
    }
    MovedKeeps(s, t, w);
  }

  lemma ReportIsLogged(s: State, p: Pass)
    requires Inv(s) && PassOk(s, p) && p.phase.ToReport?
    ensures var result := Given(p.phase.result, p.lease.attempt, s.limits.cap);
            result.outcome.status != Retryable ==> FromRun(s, PayloadOf(result, p.cfg.uid))
    ensures var result := Given(p.phase.result, p.lease.attempt, s.limits.cap);
            result.jobId == p.job.jobId && result.token == p.job.token
  {
    var n :| 0 <= n < |s.runs| && s.runs[n].result == p.phase.result && s.runs[n].cfg == p.cfg
             && s.runs[n].lease == p.lease;
    assert RunOk(s, s.runs[n]);
  }

  lemma StoredIsFromRun(s: State, job: Job, artifact: Artifact)
    requires Inv(s) && Load(s.store, job, artifact).Some?
    ensures FromRun(s, Load(s.store, job, artifact).value.payload)
  {
    assert BlobOk(s, s.store[Key(job.jobId, artifact)]);
  }

  lemma SendAndMove(s: State, w: nat, u: UploadEvent, p: Pass)
    requires Inv(s) && UploadOk(s, u) && w in s.passes && PassOk(s, p) && p == s.passes[w].(phase := p.phase)
    ensures Inv(Goto(Sent(s, u), w, p.phase))
  {
    hide Inv;
    OneOriginEach(s);
    var t := Goto(Sent(s, u), w, p.phase);
    assert Quiet(s, t);
    QuietGrows(s, t);
    UploadKept(s, t, u);
    PassKept(s, t, p);
    assert t.passes == s.passes[w := p] && t.uploads == s.uploads + [u];
    InvKept(s, t);
  }

  lemma ReplayKeeps(s: State, w: nat, arrives: bool, acked: bool)
    requires Inv(s) && In(s, w) && s.passes[w].phase.Uploading?
    ensures Inv(DoUpload(s, w, arrives, acked))
  {
    hide Inv;
    if !acked || arrives {
      var p := s.passes[w];
      PassOf(s, w);
      var t := p.phase.turn;
      StoredIsFromRun(s, p.job, t.artifact);
      SendAndMove(s, w, Replay(p.lease, t, arrives), p.(phase := if acked then ToComplete else ToPublish(t)));
    }
  }

  lemma ReportKeeps(s: State, w: nat, arrives: bool, acked: bool)
    requires Inv(s) && In(s, w) && s.passes[w].phase.ToReport?
    ensures Inv(DoUpload(s, w, arrives, acked))
  {
    hide Inv;
    var p := s.passes[w];
    PassOf(s, w);
    ReportIsLogged(s, p);
    var result := Given(p.phase.result, p.lease.attempt, s.limits.cap);
    if acked && !arrives {
    } else if result.outcome.status == Retryable || !p.cfg.enabled {
      MovedKeeps(s, Goto(s, w, if result.outcome.status == Retryable then ToRelease else ToComplete), w);
    } else {
      SendAndMove(s, w, Direct(p.lease, PayloadOf(result, p.cfg.uid), arrives),
                  p.(phase := if acked then ToComplete else ToRelease));
    }
  }

  lemma UploadKeeps(s: State, w: nat, arrives: bool, acked: bool)
    requires Inv(s)
    ensures Inv(DoUpload(s, w, arrives, acked))
  {
    hide Inv;
    if In(s, w) && s.passes[w].phase.Uploading? {
      ReplayKeeps(s, w, arrives, acked);
    } else if In(s, w) && s.passes[w].phase.ToReport? {
      ReportKeeps(s, w, arrives, acked);
    } else {
      assert DoUpload(s, w, arrives, acked) == s;
    }
  }

  /** A message is added, and the pass that added it moves on or ends. */
  lemma EnqueueKeeps(s: State, body: Option<Job>, due: Option<nat>, dead: bool, origin: Origin, w: nat, t: State)
    requires Inv(s) && Moved(Enqueue(s, body, due, dead, origin), t, w)
    requires MessageOk(Enqueue(s, body, due, dead, origin), |s.msgs|)
    requires w in t.passes ==> PassOk(s, t.passes[w])
    ensures Inv(t)
  {
    hide Inv;
    OneOriginEach(s);
    var mid := Enqueue(s, body, due, dead, origin);
    QuietGrows(mid, t);
    MessageKept(mid, t, |s.msgs|);
    assert Grows(s, t);
    if w in t.passes {
      PassKept(s, t, t.passes[w]);
    }
    InvKept(s, t);
  }

  /** The message a turn publishes is accounted for by that turn. */
  lemma SuccessorIsBorn(s: State, l: Lease, job: Job, turn: Turn)
    requires Inv(s) && BodyIs(s, l, job) && TurnOk(s, job, l.attempt, turn) && turn.readAt <= s.now
    ensures MessageOk(Enqueue(s, Some(Message(turn.envelope, Next(turn))), Some(DueAt(s.now, DelayOf(Next(turn)))),
                              Next(turn).exhausted,
                              Origin(Born(l.id, l.attempt, turn, s.now), turn.envelope.tier)), |s.msgs|)
  {
    var t := Enqueue(s, Some(Message(turn.envelope, Next(turn))), Some(DueAt(s.now, DelayOf(Next(turn)))),
                              Next(turn).exhausted,
                     Origin(Born(l.id, l.attempt, turn, s.now), turn.envelope.tier));
    assert Grows(s, t);
    BodyKept(s, t, l, job);
    TurnKept(s, t, job, l.attempt, turn);
  }

  lemma PublishKeeps(s: State, w: nat, write: Write)
    requires Inv(s)
    ensures Inv(DoPublish(s, w, write))
  {
    hide Inv;
    var t := DoPublish(s, w, write);
    if In(s, w) && s.passes[w].phase.ToPublish? {
      var p := s.passes[w];
      var turn := p.phase.turn;
      PassOf(s, w);
      if write == NotWritten {
        MovedKeeps(s, t, w);
      } else {
        var next := Next(turn);
        var due := Some(DueAt(s.now, DelayOf(next)));
        SuccessorIsBorn(s, p.lease, p.job, turn);
        EnqueueKeeps(s, Some(Message(turn.envelope, next)), due, next.exhausted,
                     Origin(Born(p.lease.id, p.lease.attempt, turn, s.now), turn.envelope.tier), w, t);
      }
    }
  }

  lemma RecoverKeeps(s: State, key: Key, cfg: Config, write: Write)
    requires Inv(s)
    ensures Inv(DoRecover(s, key, cfg, write))
  {
    hide Inv;
    OneOriginEach(s);
    var t := DoRecover(s, key, cfg, write);
    WorldGrows(s, Recover(key, cfg, write));
    if t != s {
      assert MessageOk(t, |s.msgs|);
    }
    InvKept(s, t);
  }

  lemma WorldKeeps(s: State, a: Action)
    requires Inv(s) && !a.Recover?
    ensures Inv(DoWorld(s, a))
  {
    hide Inv;
    OneOriginEach(s);
    WorldGrows(s, a);
    InvKept(s, DoWorld(s, a));
  }

  lemma CompleteKeeps(s: State, w: nat, ok: bool)
    requires Inv(s)
    ensures Inv(DoComplete(s, w, ok))
  {
    hide Inv;
    OneOriginEach(s);
    CompleteGrows(s, w, ok);
    InvKept(s, DoComplete(s, w, ok));
  }

  lemma ReleaseKeeps(s: State, w: nat, ok: bool)
    requires Inv(s)
    ensures Inv(DoRelease(s, w, ok))
  {
    hide Inv;
    OneOriginEach(s);
    ReleaseGrows(s, w, ok);
    InvKept(s, DoRelease(s, w, ok));
  }

  lemma EndKeeps(s: State, a: Action)
    requires Inv(s) && (a.Crash? || a.Panic? || a.Misroute?)
    ensures Inv(Step(s, a))
  {
    hide Inv;
    OneOriginEach(s);
    var t := Step(s, a);
    RestIsQuiet(s, a);
    QuietGrows(s, t);
    if a.w in s.passes {
      PassOf(s, a.w);
      PassKept(s, t, s.passes[a.w]);
    }
    InvKept(s, t);
  }

  lemma StepKeeps(s: State, a: Action)
    requires Inv(s)
    ensures Inv(Step(s, a))
  {
    hide Inv, DoClaim, DoLookup, DoExecute, DoPersist, DoDeliver, DoUpload, DoPublish, DoComplete, DoRelease, DoRecover;
    match a
    case Claim(w, i, cfg) => ClaimKeeps(s, w, i, cfg);
    case Lookup(w, ok) => LookupKeeps(s, w, ok);
    case Execute(w, ran, benched) => ExecuteKeeps(s, w, ran, benched);
    case Persist(w, leaf, write) => PersistKeeps(s, w, leaf, write);
    case Deliver(w) => DeliverKeeps(s, w);
    case Upload(w, arrives, acked) => UploadKeeps(s, w, arrives, acked);
    case Publish(w, write) => PublishKeeps(s, w, write);
    case Complete(w, ok) => CompleteKeeps(s, w, ok);
    case Release(w, ok) => ReleaseKeeps(s, w, ok);
    case Recover(key, cfg, write) => RecoverKeeps(s, key, cfg, write);
    case _ =>
      if a.Crash? || a.Panic? || a.Misroute? {
        EndKeeps(s, a);
      } else {
        WorldKeeps(s, a);
      }
  }

  lemma {:induction false} Reachable(limits: Limits, run: seq<Action>)
    ensures Inv(Run(Initial(limits), run))
    decreases |run|
  {
    if run != [] {
      Reachable(limits, run[..|run| - 1]);
      StepKeeps(Run(Initial(limits), run[..|run| - 1]), run[|run| - 1]);
    }
  }

  lemma {:induction false} RunGrows(s: State, run: seq<Action>)
    ensures Grows(s, Run(s, run))
    decreases |run|
  {
    if run != [] {
      var mid := Run(s, run[..|run| - 1]);
      RunGrows(s, run[..|run| - 1]);
      StepGrows(mid, run[|run| - 1]);
      GrowsTwice(s, mid, Run(s, run));
    }
  }

  lemma GrowsTwice(s: State, t: State, u: State)
    requires Grows(s, t) && Grows(t, u)
    ensures Grows(s, u)
  {
    forall i | 0 <= i < |s.msgs|
      ensures Later(s.msgs[i], u.msgs[i])
    {
      assert Later(s.msgs[i], t.msgs[i]) && Later(t.msgs[i], u.msgs[i]);
    }
  }
}
