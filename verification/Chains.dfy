/**
 Chains of deliveries: what every replay sends, what every successor keeps, and
 how many uploads a chain can make.
 */
module Chains {
  import opened Wrappers
  import opened Numbers
  import opened LeaseQueue
  import opened Delivery
  import opened Protocol
  import opened Invariants

  // ---- what is sent -----------------------------------------------------

  /** Every replay sends the stored payload of its own lease's job attempt, within
      its rounds and before its deadline. */
  lemma ReplaysSendWhatIsStored(limits: Limits, run: seq<Action>, n: nat)
    requires n < |Run(Initial(limits), run).uploads| && Run(Initial(limits), run).uploads[n].Replay?
    ensures var s := Run(Initial(limits), run);
            var u := s.uploads[n];
            u.lease.id < |s.msgs| && s.msgs[u.lease.id].body.Some?
            && var job := s.msgs[u.lease.id].body.value;
               var key := Key(job.jobId, u.turn.artifact);
               key in s.store && s.store[key].Envelop?
               && PayloadSent(u) == s.store[key].envelope.payload
               && PayloadSent(u).jobUid == job.jobId && PayloadSent(u).token == job.token
               && (job.delivery.Some? ==> job.delivery.value.Fields? && job.delivery.value.state.artifact == u.turn.artifact)
    ensures var t := Run(Initial(limits), run).uploads[n].turn;
            1 <= t.number <= t.maximum <= t.state.maxRounds && t.readAt < t.state.deadline && !t.state.exhausted
  {
    Reachable(limits, run);
    var s := Run(Initial(limits), run);
    assert UploadOk(s, s.uploads[n]);
  }

  /** Two replays of one artifact for one job send the same bytes, however far apart. */
  lemma ReplaysAgree(limits: Limits, run: seq<Action>, n: nat, m: nat)
    requires var s := Run(Initial(limits), run);
             n < |s.uploads| && m < |s.uploads| && s.uploads[n].Replay? && s.uploads[m].Replay?
             && s.uploads[n].turn.artifact == s.uploads[m].turn.artifact
             && PayloadSent(s.uploads[n]).jobUid == PayloadSent(s.uploads[m]).jobUid
    ensures var s := Run(Initial(limits), run); PayloadSent(s.uploads[n]) == PayloadSent(s.uploads[m])
  {
    ReplaysSendWhatIsStored(limits, run, n);
    ReplaysSendWhatIsStored(limits, run, m);
  }

  /** What is stored stays, byte for byte. */
  lemma StoredForGood(limits: Limits, before: seq<Action>, later: seq<Action>, key: Key)
    requires key in Run(Initial(limits), before).store
    ensures var s := Run(Initial(limits), before);
            key in Run(s, later).store && Run(s, later).store[key] == s.store[key]
  {
    RunGrows(Run(Initial(limits), before), later);
  }

  // ---- what a successor keeps -------------------------------------------

  predicate IsMarker(s: State, i: nat) {
    i < |s.msgs| && s.msgs[i].body.Some? && s.msgs[i].body.value.delivery.Some?
    && s.msgs[i].body.value.delivery.value.Fields?
  }

  function MarkerOf(s: State, i: nat): DeliveryState
    requires IsMarker(s, i)
  {
    s.msgs[i].body.value.delivery.value.state
  }

  /** Same callback, same window: only the round and the verdict on it may differ. */
  predicate SameWindow(a: DeliveryState, b: DeliveryState) {
    a.artifact == b.artifact && a.deadline == b.deadline && a.maxRounds == b.maxRounds
  }

  /** One link of a chain.  A successor is a marker for its parent's job attempt, in the
      tier the callback was saved for; it keeps its parent's window, counts its
      parent's attempt as its round, and goes on only while rounds and time are left;
      otherwise it is dead for good. */
  lemma SuccessorsContinue(limits: Limits, run: seq<Action>, i: nat)
    requires var s := Run(Initial(limits), run); i < |s.origins| && s.origins[i].birth.Born?
    ensures var s := Run(Initial(limits), run);
            var b := s.origins[i].birth;
            && b.parent < i < |s.msgs| && s.msgs[b.parent].body.Some? && IsMarker(s, i)
            && IdentOf(s.msgs[i].body.value) == IdentOf(s.msgs[b.parent].body.value)
            && (IsMarker(s, b.parent) ==> SameWindow(MarkerOf(s, i), MarkerOf(s, b.parent)))
            && (s.msgs[b.parent].body.value.delivery.None? ==>
                  MarkerOf(s, i).deadline == b.turn.envelope.deadline
                  && MarkerOf(s, i).maxRounds == b.turn.envelope.maxRounds)
            && Load(s.store, s.msgs[i].body.value, MarkerOf(s, i).artifact) == Some(b.turn.envelope)
            && s.origins[i].tier == b.turn.envelope.tier
            && MarkerOf(s, i).round == b.turn.number
            && (MarkerOf(s, i).exhausted ==> s.msgs[i].place == Dead)
            && (!MarkerOf(s, i).exhausted ==>
                  MarkerOf(s, i).round < Min(MarkerOf(s, i).maxRounds, b.turn.ceiling)
                  && ParseMarker(s.msgs[i].body.value.delivery.value) == Some(MarkerOf(s, i)))
  {
    Reachable(limits, run);
    var s := Run(Initial(limits), run);
    assert MessageOk(s, i);
  }

  /** A successor that goes on falls due one backoff after it was sent; had it been sent when
      it was decided on, that would have been before the deadline. */
  lemma SuccessorsFallDue(limits: Limits, run: seq<Action>, i: nat)
    requires var s := Run(Initial(limits), run); i < |s.origins| && s.origins[i].birth.Born?
    requires IsMarker(Run(Initial(limits), run), i) && !MarkerOf(Run(Initial(limits), run), i).exhausted
    ensures var s := Run(Initial(limits), run);
            var b := s.origins[i].birth;
            && s.msgs[i].due == Some(DueAt(b.sentAt, Backoff(b.turn.number))) && b.turn.readAt <= b.sentAt
            && b.turn.readAt + Backoff(b.turn.number) as real < MarkerOf(s, i).deadline
  {
    Reachable(limits, run);
    var s := Run(Initial(limits), run);
    assert MessageOk(s, i);
    BackoffIsExponential(s.origins[i].birth.turn.number);
  }

  /** Message j descends from message i through successors alone. */
  predicate Descends(s: State, i: nat, j: nat)
    decreases j
  {
    i == j || (j < |s.origins| && s.origins[j].birth.Born? && s.origins[j].birth.parent < j
               && Descends(s, i, s.origins[j].birth.parent))
  }

  /** One link of a chain keeps its window. */
  lemma LinkKeepsItsWindow(s: State, j: nat)
    requires Inv(s) && j < |s.origins| && s.origins[j].birth.Born? && IsMarker(s, s.origins[j].birth.parent)
    ensures var k := s.origins[j].birth.parent;
            IsMarker(s, j) && SameWindow(MarkerOf(s, k), MarkerOf(s, j)) && k < |s.origins|
            && IdentOf(s.msgs[k].body.value) == IdentOf(s.msgs[j].body.value)
            && (s.origins[k].birth != External ==> s.origins[j].tier == s.origins[k].tier)
  {
    OneOriginEach(s);
    var k := s.origins[j].birth.parent;
    assert MessageOk(s, k) && MessageOk(s, j);
  }

  /** Until somebody recovers it by hand, a callback keeps its identity, its window and
      its tier from the first marker of its chain to the last. */
  lemma {:induction false} ChainKeepsItsWindow(limits: Limits, run: seq<Action>, i: nat, j: nat)
    requires var s := Run(Initial(limits), run);
             IsMarker(s, i) && j < |s.origins| && Descends(s, i, j)
    ensures var s := Run(Initial(limits), run);
            IsMarker(s, j) && SameWindow(MarkerOf(s, i), MarkerOf(s, j))
            && IdentOf(s.msgs[i].body.value) == IdentOf(s.msgs[j].body.value)
            && i < |s.origins| && (s.origins[i].birth != External ==> s.origins[j].tier == s.origins[i].tier)
    decreases j
  {
    var s := Run(Initial(limits), run);
    Reachable(limits, run);
    OneOriginEach(s);
    if i != j {
      var k := s.origins[j].birth.parent;
      hide Descends, Run;
      ChainKeepsItsWindow(limits, run, i, k);
      LinkKeepsItsWindow(s, j);
    }
  }
}
