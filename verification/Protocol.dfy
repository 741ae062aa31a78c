/**
 Any number of workers, one queue, one artifact store and one control plane.

 A worker's pass over a lease is cut at every call it makes to something outside
 itself, and any of those calls may fail, or take effect and still report a
 failure.  A pass may vanish (a crash, a killed host) between any two of them.
 An action that does not apply to the state leaves it alone, so every sequence
 of actions is a run.
 */
module Protocol {
  import opened Wrappers
  import opened Numbers
  import opened LeaseQueue
  import opened Executor
  import opened Delivery

  /** One delivery's view of its callback: the saved envelope, the state it starts
      from, its attempt number, the ceiling its worker is configured with, the bound
      that leaves, and the clock it was decided at. */
  datatype Turn = Turn(
    artifact: Artifact,
    envelope: Envelope,
    state: DeliveryState,
    number: nat,
    ceiling: int,
    maximum: int,
    readAt: real)

  predicate Over(t: Turn) { Spent(t.state, t.number, t.maximum, t.readAt) }

  function Next(t: Turn): DeliveryState { Successor(t.state, t.number, t.maximum, t.readAt) }

  /** How long a successor waits before it falls due. */
  function DelayOf(next: DeliveryState): (delay: nat)
    ensures delay <= 900
  {
    BackoffIsExponential(Max(0, next.round));
    if next.exhausted then 0 else Backoff(Max(0, next.round))
  }

  /** How a message came to be published. */
  datatype Birth = External | Recovery | Born(parent: nat, attempt: nat, turn: Turn, sentAt: real)

  datatype Origin = Origin(birth: Birth, tier: string)

  /** Where a pass stands: what it will do next. */
  datatype Phase =
    | Started
    | ToExecute
    | ToPersist(result: JobResult)
    | ToDeliver(artifact: Artifact, envelope: Envelope)
    | Uploading(turn: Turn)
    | ToPublish(turn: Turn)
    | ToReport(result: JobResult)
    | ToComplete
    | ToRelease

  /** `seen` is what was stored when the pass began. */
  datatype Pass = Pass(lease: Lease, job: Job, cfg: Config, seen: set<Key>, phase: Phase)

  datatype Ident = Ident(jobId: string, token: Option<string>)

  function IdentOf(job: Job): Ident { Ident(job.jobId, job.token) }

  /** One call of the executor. */
  datatype RunEvent = RunEvent(lease: Lease, job: Job, cfg: Config, seen: set<Key>, ran: Ran, benched: Outcome,
                               result: JobResult)

  /** One callback sent, replayed from an envelope or straight from a result, and whether it
      reached the control plane. */
  datatype UploadEvent =
    | Replay(lease: Lease, turn: Turn, arrived: bool)
    | Direct(lease: Lease, sent: Payload, arrived: bool)

  function PayloadSent(u: UploadEvent): Payload { if u.Replay? then u.turn.envelope.payload else u.sent }

  datatype State = State(
    limits: Limits,
    now: real,
    msgs: seq<Msg<Job>>,
    origins: seq<Origin>,
    store: map<Key, Blob>,
    passes: map<nat, Pass>,
    runs: seq<RunEvent>,
    uploads: seq<UploadEvent>)

  function Initial(limits: Limits): State { State(limits, 0.0, [], [], map[], map[], [], []) }

  function IdentSent(u: UploadEvent): Ident { Ident(PayloadSent(u).jobUid, PayloadSent(u).token) }

  datatype Action =
    | Tick(now: real)
    | Submit(body: Option<Job>, due: Option<nat>, tier: string)
    | Plant(key: Key)
    | Recover(key: Key, cfg: Config, write: Write)
    | Reclaim(id: nat)
    | Quarantine(id: nat)
    | Stick(id: nat, counted: bool)
    | Claim(w: nat, id: nat, cfg: Config)
    | Crash(w: nat)
    | Panic(w: nat)
    | Misroute(w: nat)
    | Lookup(w: nat, ok: bool)
    | Execute(w: nat, ran: Ran, benched: Outcome)
    | Persist(w: nat, leaf: nat, write: Write)
    | Deliver(w: nat)
    | Upload(w: nat, arrives: bool, acked: bool)
    | Publish(w: nat, write: Write)
    | Complete(w: nat, ok: bool)
    | Release(w: nat, ok: bool)

  // ---- small changes of state -------------------------------------------

  function Goto(s: State, w: nat, phase: Phase): State
    requires w in s.passes
  {
    s.(passes := s.passes[w := s.passes[w].(phase := phase)])
  }

  /** The pass ends here, with nothing acknowledged. */
  function Abandon(s: State, w: nat): State { s.(passes := s.passes - {w}) }

  function SetMsg(s: State, i: nat, m: Msg<Job>): State
    requires i < |s.msgs|
  {
    s.(msgs := s.msgs[i := m])
  }

  function DueAt(now: real, delay: nat): nat {
    var ms := Millis(now + delay as real);
    if ms < 0 then 0 else ms
  }

  function Enqueue(s: State, body: Option<Job>, due: Option<nat>, dead: bool, origin: Origin): State {
    s.(msgs := s.msgs + [Fresh(body, due, dead, s.now)], origins := s.origins + [origin])
  }

  // ---- the steps of a pass ----------------------------------------------

  predicate In(s: State, w: nat) {
    w in s.passes && s.passes[w].lease.id < |s.msgs| && s.passes[w].lease.id < |s.origins|
  }

  function Readable(p: Pass): bool { p.cfg.enabled && p.job.token.Some? }

  predicate Misrouted(p: Pass) { p.job.bench != p.cfg.bencher }

  function DoClaim(s: State, w: nat, i: nat, cfg: Config): State {
    if w in s.passes || i >= |s.msgs| || !Offered(s.msgs[i], s.now) || Poisoned(s.msgs[i], s.limits.cap)
       || !ConfigOk(cfg) then s
    else
      var m := s.msgs[i];
      SetMsg(s, i, Leased(m, s.now))
      .(passes := s.passes[w := Pass(Lease(i, m.attempts + 1), m.body.value, cfg, s.store.Keys, Started)])
  }

  ghost function DoLookup(s: State, w: nat, ok: bool): State {
    if !In(s, w) || !s.passes[w].phase.Started? || Misrouted(s.passes[w]) then s
    else
      var p := s.passes[w];
      if p.job.delivery.Some? then
        if !Readable(p) || !ok then Abandon(s, w)
        else
          match ParseMarker(p.job.delivery.value)
          case None => Abandon(s, w)
          case Some(st) =>
            match Load(s.store, p.job, st.artifact)
            case None => Abandon(s, w)
            case Some(e) => Goto(s, w, ToDeliver(st.artifact, e))
      else if Readable(p) then
        if !ok then Abandon(s, w)
        else
          match Find(s.store, p.job)
          case Nothing => Goto(s, w, ToExecute)
          case Hit(artifact, e) => Goto(s, w, ToDeliver(artifact, e))
          case Unreadable => Abandon(s, w)
      else Goto(s, w, ToExecute)
  }

  /** What the executor returns.  A benchmark's result is given; it never names a signal. */
  function RawResult(job: Job, ran: Ran, benched: Outcome): JobResult {
    JobResult(job.jobId, job.token,
              if job.bench then benched.(killedBy := None) else Interpret(job.project, ran))
  }

  function Given(r: JobResult, attempt: nat, cap: nat): JobResult { r.(outcome := GiveUp(r.outcome, attempt, cap)) }

  function DoExecute(s: State, w: nat, ran: Ran, benched: Outcome): State {
    if !In(s, w) || !s.passes[w].phase.ToExecute? then s
    else
      var p := s.passes[w];
      var result := Given(RawResult(p.job, ran, benched), p.lease.attempt, s.limits.cap);
      var s' := s.(runs := s.runs + [RunEvent(p.lease, p.job, p.cfg, p.seen, ran, benched, result)]);
      Goto(s', w, if p.cfg.produce && Readable(p) && result.outcome.status != Retryable
                  then ToPersist(result) else ToReport(result))
  }

  function DoPersist(s: State, w: nat, leaf: nat, write: Write): State {
    if !In(s, w) || !s.passes[w].phase.ToPersist? || s.passes[w].job.token.None? then s
    else
      var p := s.passes[w];
      var artifact := Saved(p.job.token.value, leaf);
      var key := Key(p.job.jobId, artifact);
      if key in s.store then s
      else
        var e := Enveloped(p.job, p.phase.result, p.cfg, s.origins[p.lease.id].tier, p.lease.attempt, s.now);
        var s' := if write == NotWritten then s else s.(store := s.store[key := Envelop(e)]);
        if write == Written then Goto(s', w, ToDeliver(artifact, e)) else Abandon(s', w)
  }

  function DoDeliver(s: State, w: nat): State {
    if !In(s, w) || !s.passes[w].phase.ToDeliver? then s
    else
      var p := s.passes[w];
      var artifact, e := p.phase.artifact, p.phase.envelope;
      match StateOf(p.job, p.lease.attempt, artifact, e)
      case None => Abandon(s, w)
      case Some(st) =>
        var t := Turn(artifact, e, st, AttemptNo(st, p.job.delivery.Some?, p.lease.attempt), p.cfg.maxRounds,
                      Min(st.maxRounds, p.cfg.maxRounds), s.now);
        Goto(s, w, if Over(t) then ToPublish(t) else Uploading(t))
  }

  function Sent(s: State, event: UploadEvent): State { s.(uploads := s.uploads + [event]) }

  /** A callback goes out: it may arrive or not, and be acknowledged only if it did. */
  function DoUpload(s: State, w: nat, arrives: bool, acked: bool): State {
    if !In(s, w) || (acked && !arrives) then s
    else
      var p := s.passes[w];
      match p.phase
      case Uploading(t) =>
        Goto(Sent(s, Replay(p.lease, t, arrives)), w, if acked then ToComplete else ToPublish(t))
      case ToReport(result0) =>
        var result := Given(result0, p.lease.attempt, s.limits.cap);
        if result.outcome.status == Retryable then Goto(s, w, ToRelease)
        else if !p.cfg.enabled then Goto(s, w, ToComplete)
        else
          var s' := Sent(s, Direct(p.lease, PayloadOf(result, p.cfg.uid), arrives));
          Goto(s', w, if acked then ToComplete else ToRelease)
      case _ => s
  }

  function DoPublish(s: State, w: nat, write: Write): State {
    if !In(s, w) || !s.passes[w].phase.ToPublish? then s
    else
      var p := s.passes[w];
      var t := p.phase.turn;
      var e, next := t.envelope, Next(t);
      var due := DueAt(s.now, DelayOf(next));
      var s' := if write == NotWritten then s
                else Enqueue(s, Some(Message(e, next)), Some(due), next.exhausted,
                             Origin(Born(p.lease.id, p.lease.attempt, t, s.now), e.tier));
      if write == Written then Goto(s', w, ToComplete) else Abandon(s', w)
  }

  function DoComplete(s: State, w: nat, ok: bool): State {
    if !In(s, w) || !s.passes[w].phase.ToComplete? then s
    else
      var l := s.passes[w].lease;
      Abandon(if ok then SetMsg(s, l.id, Completed(s.msgs[l.id], l.attempt)) else s, w)
  }

  function DoRelease(s: State, w: nat, ok: bool): State {
    if !In(s, w) || !s.passes[w].phase.ToRelease? then s
    else
      var l := s.passes[w].lease;
      Abandon(if ok then SetMsg(s, l.id, Released(s.msgs[l.id], l.attempt)) else s, w)
  }

  /** Explicit recovery of one exact key starts one new window. */
  function DoRecover(s: State, key: Key, cfg: Config, write: Write): State {
    if key !in s.store || !s.store[key].Envelop? || !cfg.enabled || !ConfigOk(cfg) || write == NotWritten then s
    else
      var job := s.store[key].envelope.job;
      match Load(s.store, job, key.artifact)
      case None => s
      case Some(e) =>
        if e.job.jobId != key.jobId then s
        else
          var st := DeliveryState(key.artifact, 0, s.now + cfg.window, cfg.maxRounds, false);
          Enqueue(s, Some(Message(e, st)), Some(DueAt(s.now, 0)), false, Origin(Recovery, e.tier))
  }

  /** The steps of the queue itself, and of the world around the workers. */
  function DoWorld(s: State, a: Action): State {
    match a
    case Tick(now) => if now >= s.now then s.(now := now) else s
    case Submit(body, due, tier) => Enqueue(s, body, due, false, Origin(External, tier))
    case Plant(key) => if key in s.store then s else s.(store := s.store[key := Junk])
    case Recover(key, cfg, write) => DoRecover(s, key, cfg, write)
    case Reclaim(i) =>
      if i < |s.msgs| && Expired(s.msgs[i], s.now, s.limits.visibility) then SetMsg(s, i, Reclaimed(s.msgs[i])) else s
    case Quarantine(i) =>
      if i < |s.msgs| && Offered(s.msgs[i], s.now) then SetMsg(s, i, Quarantined(s.msgs[i])) else s
    case Stick(i, counted) =>
      if i < |s.msgs| && Offered(s.msgs[i], s.now) && (counted ==> !Poisoned(s.msgs[i], s.limits.cap))
      then SetMsg(s, i, Stuck(s.msgs[i], counted)) else s
    case _ => s
  }

  ghost function Step(s: State, a: Action): State {
    match a
    case Claim(w, i, cfg) => DoClaim(s, w, i, cfg)
    case Crash(w) => Abandon(s, w)
    case Panic(w) => if In(s, w) then Goto(s, w, ToRelease) else s
    case Misroute(w) =>
      if In(s, w) && s.passes[w].phase.Started? && Misrouted(s.passes[w]) then Goto(s, w, ToRelease) else s
    case Lookup(w, ok) => DoLookup(s, w, ok)
    case Execute(w, ran, benched) => DoExecute(s, w, ran, benched)
    case Persist(w, leaf, write) => DoPersist(s, w, leaf, write)
    case Deliver(w) => DoDeliver(s, w)
    case Upload(w, arrives, acked) => DoUpload(s, w, arrives, acked)
    case Publish(w, write) => DoPublish(s, w, write)
    case Complete(w, ok) => DoComplete(s, w, ok)
    case Release(w, ok) => DoRelease(s, w, ok)
    case _ => DoWorld(s, a)
  }

  ghost function Run(s: State, run: seq<Action>): State
    decreases |run|
  {
    if run == [] then s else Step(Run(s, run[..|run| - 1]), run[|run| - 1])
  }

  lemma WorldLeavesPasses(s: State, a: Action)
    ensures var t := DoWorld(s, a); t.passes == s.passes && t.runs == s.runs && t.uploads == s.uploads
  {
  }

  /** The worker an action belongs to, if it belongs to one. */
  function Actor(a: Action): Option<nat> {
    match a
    case Tick(_) => None
    case Submit(_, _, _) => None
    case Plant(_) => None
    case Recover(_, _, _) => None
    case Reclaim(_) => None
    case Quarantine(_) => None
    case Stick(_, _) => None
    case _ => Some(a.w)
  }

  predicate OneMoves(before: map<nat, Pass>, later: map<nat, Pass>, w: nat) {
    || later == before
    || later == before - {w}
    || (w in before && w in later && later == before[w := before[w].(phase := later[w].phase)])
  }

  lemma EarlyShape(s: State, w: nat, ok: bool, ran: Ran, benched: Outcome)
    ensures OneMoves(s.passes, DoLookup(s, w, ok).passes, w) && OneMoves(s.passes, DoExecute(s, w, ran, benched).passes, w)
  {
    hide Load, Find, Given, RawResult;
  }

  lemma SavingShape(s: State, w: nat, leaf: nat, write: Write)
    ensures OneMoves(s.passes, DoPersist(s, w, leaf, write).passes, w) && OneMoves(s.passes, DoDeliver(s, w).passes, w)
  {
    hide Enveloped, StateOf, Spent;
  }

  lemma SendingShape(s: State, w: nat, arrives: bool, acked: bool, write: Write)
    ensures OneMoves(s.passes, DoUpload(s, w, arrives, acked).passes, w)
    ensures OneMoves(s.passes, DoPublish(s, w, write).passes, w)
  {
    hide PayloadOf, Given, Next, Message;
  }

  lemma EndingShape(s: State, w: nat, ok: bool)
    ensures OneMoves(s.passes, DoComplete(s, w, ok).passes, w) && OneMoves(s.passes, DoRelease(s, w, ok).passes, w)
  {
  }

  /** Apart from a claim, a step moves one pass to another phase, or ends it. */
  lemma PassShape(s: State, a: Action)
    requires !a.Claim?
    ensures match Actor(a)
            case None => Step(s, a).passes == s.passes
            case Some(w) => OneMoves(s.passes, Step(s, a).passes, w)
  {
    hide DoWorld, DoLookup, DoExecute, DoPersist, DoDeliver, DoUpload, DoPublish, DoComplete, DoRelease;
    match a
    case Lookup(w, ok) => EarlyShape(s, w, ok, NotStarted, Outcome(Retryable, None, None, ""));
    case Execute(w, ran, benched) => EarlyShape(s, w, true, ran, benched);
    case Persist(w, leaf, write) => SavingShape(s, w, leaf, write);
    case Deliver(w) => SavingShape(s, w, 0, NotWritten);
    case Upload(w, arrives, acked) => SendingShape(s, w, arrives, acked, NotWritten);
    case Publish(w, write) => SendingShape(s, w, false, false, write);
    case Complete(w, ok) => EndingShape(s, w, ok);
    case Release(w, ok) => EndingShape(s, w, ok);
    case _ => WorldLeavesPasses(s, a);
  }

  lemma RunOneMore(s: State, run: seq<Action>, a: Action)
    ensures Run(s, run + [a]) == Step(Run(s, run), a)
  {
    assert (run + [a])[..|run|] == run;
  }

  lemma {:induction false} RunAppend(s: State, a: seq<Action>, b: seq<Action>)
    ensures Run(s, a + b) == Run(Run(s, a), b)
    decreases |b|
  {
    hide Step;
    if b == [] {
      assert a + b == a;
    } else {
      var front, last := b[..|b| - 1], b[|b| - 1];
      RunAppend(s, a, front);
      assert a + b == (a + front) + [last];
      RunOneMore(s, a + front, last);
    }
  }

  lemma UnrollOne(s: State, run: seq<Action>, k: nat)
    requires k < |run|
    ensures Run(s, run[..k + 1]) == Step(Run(s, run[..k]), run[k])
  {
    assert run[..k + 1] == run[..k] + [run[k]];
    RunOneMore(s, run[..k], run[k]);
  }
}
