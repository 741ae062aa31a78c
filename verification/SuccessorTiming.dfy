/**
 When successors fall due.  A delivery decides at one clock reading and publishes at a
 later one, with the upload in between; how late its successor can be is settled by the
 time that may take.
 */
module SuccessorTiming {
  import opened Wrappers
  import opened LeaseQueue
  import opened Delivery
  import opened Protocol
  import opened Invariants
  import opened Chains

  // ---- prompt runs ------------------------------------------------------

  /** A publication comes at most this long after its delivery was decided on. */
  predicate Prompt(s: State, a: Action, limit: real) {
    a.Publish? && In(s, a.w) && s.passes[a.w].phase.ToPublish? ==> s.now - s.passes[a.w].phase.turn.readAt <= limit
  }

  ghost predicate PromptRun(s: State, run: seq<Action>, limit: real) {
    forall k :: 0 <= k < |run| ==> Prompt(Run(s, run[..k]), run[k], limit)
  }

  /** The successors published since the first `from` messages were sent in time. */
  ghost predicate AllPrompt(s: State, from: nat, limit: real) {
    forall i :: from <= i < |s.origins| && s.origins[i].birth.Born? ==>
      0.0 <= s.origins[i].birth.sentAt <= s.origins[i].birth.turn.readAt + limit
  }

  /** A successor's birth is the publication of its turn, at the clock of that step. */
  lemma NewOrigin(s: State, a: Action, i: nat)
    requires |s.origins| <= i < |Step(s, a).origins| && Step(s, a).origins[i].birth.Born?
    ensures var b := Step(s, a).origins[i].birth;
            a.Publish? && In(s, a.w) && s.passes[a.w].phase == ToPublish(b.turn) && b.sentAt == s.now
  {
    hide Load, Find, Enveloped, StateOf, Spent, PayloadOf, Given, RawResult, Next, Message;
  }

  lemma {:induction false} PromptlyBorn(s: State, run: seq<Action>, limit: real)
    requires PromptRun(s, run, limit) && s.now >= 0.0
    ensures AllPrompt(Run(s, run), |s.origins|, limit) && Run(s, run).now >= 0.0
    decreases |run|
  {
    if run != [] {
      var front, a := run[..|run| - 1], run[|run| - 1];
      var mid := Run(s, front);
      forall k | 0 <= k < |front|
        ensures Prompt(Run(s, front[..k]), front[k], limit)
      {
        assert front[..k] == run[..k] && front[k] == run[k];
      }
      PromptlyBorn(s, front, limit);
      StepGrows(mid, a);
      var t := Step(mid, a);
      forall i | |s.origins| <= i < |t.origins| && t.origins[i].birth.Born?
        ensures 0.0 <= t.origins[i].birth.sentAt <= t.origins[i].birth.turn.readAt + limit
      {
        if i < |mid.origins| {
          assert t.origins[i] == mid.origins[i];
        } else {
          NewOrigin(mid, a, i);
          assert run[..|front|] == front && Prompt(mid, a, limit);
        }
      }
    }
  }

  // ---- how late a successor can be --------------------------------------

  /** The time left, when the turn is decided on, between its successor's falling due if it
      were sent at once and the deadline. */
  function Slack(t: Turn): real { t.state.deadline - (t.readAt + Backoff(t.number) as real) }

  /** When its successor falls due if it takes the limit to send. */
  function LatestDue(t: Turn, limit: real): int { Millis(t.readAt + limit + Backoff(t.number) as real) }

  predicate InTime(due: int, deadline: real) { (due as real) < deadline * 1000.0 }

  /** Where no delivery takes longer than the limit, every live successor falls due by the
      latest due time of its turn: less than the limit after its deadline, and before the
      deadline if that time is, as it is with more slack than the limit. */
  lemma SuccessorsAreInTime(limits: Limits, run: seq<Action>, limit: real, i: nat)
    requires PromptRun(Initial(limits), run, limit)
    requires var s := Run(Initial(limits), run);
             i < |s.origins| && s.origins[i].birth.Born? && IsMarker(s, i) && !MarkerOf(s, i).exhausted
    ensures var s := Run(Initial(limits), run);
            var deadline, t := MarkerOf(s, i).deadline, s.origins[i].birth.turn;
            && s.msgs[i].due.Some? && s.msgs[i].due.value <= LatestDue(t, limit)
            && (s.msgs[i].due.value as real) < (deadline + limit) * 1000.0
            && (InTime(LatestDue(t, limit), deadline) ==> InTime(s.msgs[i].due.value, deadline))
            && (Slack(t) > limit ==> InTime(s.msgs[i].due.value, deadline))
  {
    Reachable(limits, run);
    PromptlyBorn(Initial(limits), run, limit);
    DueByLatest(Run(Initial(limits), run), limit, i);
  }

  lemma DueByLatest(s: State, limit: real, i: nat)
    requires Inv(s) && i < |s.origins| && s.origins[i].birth.Born?
    requires 0.0 <= s.origins[i].birth.sentAt <= s.origins[i].birth.turn.readAt + limit
    requires IsMarker(s, i) && !MarkerOf(s, i).exhausted
    ensures var deadline, t := MarkerOf(s, i).deadline, s.origins[i].birth.turn;
            && s.msgs[i].due.Some? && s.msgs[i].due.value <= LatestDue(t, limit)
            && (s.msgs[i].due.value as real) < (deadline + limit) * 1000.0
            && (InTime(LatestDue(t, limit), deadline) ==> InTime(s.msgs[i].due.value, deadline))
            && (Slack(t) > limit ==> InTime(s.msgs[i].due.value, deadline))
  {
    OneOriginEach(s);
    var b := s.origins[i].birth;
    assert MessageOk(s, i);
    BackoffIsExponential(b.turn.number);
    assert s.msgs[i].due == Some(DueAt(b.sentAt, Backoff(b.turn.number)));
    assert b.turn.readAt + Backoff(b.turn.number) as real < b.turn.state.deadline == MarkerOf(s, i).deadline;
    hide Inv, MessageOk, Backoff, Next;
    Timely(b.turn, limit, b.sentAt);
  }

  lemma Timely(t: Turn, limit: real, sentAt: real)
    requires 0.0 <= sentAt <= t.readAt + limit && t.readAt + Backoff(t.number) as real < t.state.deadline
    ensures var due, deadline := DueAt(sentAt, Backoff(t.number)), t.state.deadline;
            && due <= LatestDue(t, limit) && (due as real) < (deadline + limit) * 1000.0
            && (InTime(LatestDue(t, limit), deadline) ==> InTime(due, deadline))
            && (Slack(t) > limit ==> InTime(due, deadline))
  {
    var sent, latest := sentAt + Backoff(t.number) as real, t.readAt + limit + Backoff(t.number) as real;
    FloorGrows(0.0, sent * 1000.0);
    FloorGrows(sent * 1000.0, latest * 1000.0);
    assert DueAt(sentAt, Backoff(t.number)) == Millis(sent) <= Millis(latest) == LatestDue(t, limit);
    assert (Millis(latest) as real) <= latest * 1000.0;
  }

  // ---- and how late it can be made --------------------------------------

  /** Message i is the live successor that worker w's delivery of turn t published since s. */
  ghost predicate SuccessorOf(s: State, u: State, w: nat, t: Turn, i: nat)
    requires w in s.passes
  {
    && |s.msgs| <= i < |u.msgs| && i < |u.origins| && u.origins[i].birth.Born?
    && u.origins[i].birth.parent == s.passes[w].lease.id && u.origins[i].birth.attempt == s.passes[w].lease.attempt
    && u.origins[i].birth.turn == t && IsMarker(u, i) && !MarkerOf(u, i).exhausted
  }

  /** Message i is its next marker, due at its latest due time: with no more slack than the
      limit, not before the millisecond of its deadline. */
  ghost predicate EndsLate(s: State, u: State, w: nat, limit: real)
    requires w in s.passes && s.passes[w].phase.Uploading?
  {
    var t, i := s.passes[w].phase.turn, |s.msgs|;
    && SuccessorOf(s, u, w, t, i) && MarkerOf(u, i) == Next(t) && u.msgs[i].due == Some(LatestDue(t, limit))
    && (Slack(t) <= limit ==> LatestDue(t, limit) >= Millis(MarkerOf(u, i).deadline))
  }

  /** A tick up to the limit, an upload that does not arrive, and the publication. */
  function LateSteps(w: nat, last: real): seq<Action> { [Tick(last), Upload(w, false, false), Publish(w, Written)] }

  /** One message has been added: the marker that follows worker w's turn, sent at this time. */
  ghost predicate PublishedAt(s: State, u: State, w: nat, sentAt: real)
    requires w in s.passes && s.passes[w].phase.Uploading?
  {
    var t, l := s.passes[w].phase.turn, s.passes[w].lease;
    && |u.msgs| == |u.origins| == |s.msgs| + 1
    && u.origins[|s.msgs|] == Origin(Born(l.id, l.attempt, t, sentAt), t.envelope.tier)
    && u.msgs[|s.msgs|].body == Some(Message(t.envelope, Next(t)))
    && u.msgs[|s.msgs|].due == Some(DueAt(sentAt, DelayOf(Next(t))))
  }

  lemma LateEnd(s: State, w: nat, last: real)
    requires Inv(s) && In(s, w) && s.passes[w].phase.Uploading? && s.now <= last
    ensures PublishedAt(s, Run(s, LateSteps(w, last)), w, last)
  {
    hide Inv, Step, Run, Next, Message, DueAt, DelayOf;
    UnrollThree(s, LateSteps(w, last));
    SendsLate(s, w, last);
  }

  lemma SentLate(s: State, u: State, w: nat, limit: real)
    requires Inv(s) && s.now >= 0.0 && In(s, w) && s.passes[w].phase.Uploading?
    requires s.now <= s.passes[w].phase.turn.readAt + limit
    requires !Next(s.passes[w].phase.turn).exhausted && PublishedAt(s, u, w, s.passes[w].phase.turn.readAt + limit)
    ensures EndsLate(s, u, w, limit)
  {
    var t := s.passes[w].phase.turn;
    NextIs(t);
    LatestIs(t, limit);
    hide Inv, Next, Message, DelayOf, DueAt, Backoff, Millis, LatestDue, Slack;
  }

  lemma LatestIs(t: Turn, limit: real)
    requires t.readAt + limit >= 0.0
    ensures Backoff(t.number) >= 0 && DueAt(t.readAt + limit, Backoff(t.number)) == LatestDue(t, limit)
    ensures Slack(t) <= limit ==> LatestDue(t, limit) >= Millis(t.state.deadline)
  {
    BackoffIsExponential(t.number);
    hide Backoff;
    var latest := t.readAt + limit + Backoff(t.number) as real;
    FloorGrows(0.0, latest * 1000.0);
    if Slack(t) <= limit {
      FloorGrows(t.state.deadline * 1000.0, latest * 1000.0);
    }
  }

  lemma NextIs(t: Turn)
    requires !Next(t).exhausted
    ensures Next(t).deadline == t.state.deadline && DelayOf(Next(t)) == Backoff(t.number) >= 0
    ensures var job := Message(t.envelope, Next(t)); job.delivery == Some(Fields(Next(t)))
  {
    BackoffIsExponential(t.number);
  }

  lemma PromptThree(s: State, w: nat, limit: real)
    requires Inv(s) && In(s, w) && s.passes[w].phase.Uploading? && s.now <= s.passes[w].phase.turn.readAt + limit
    ensures PromptRun(s, LateSteps(w, s.passes[w].phase.turn.readAt + limit), limit)
  {
    hide Inv, Step, Run;
    UnrollThree(s, LateSteps(w, s.passes[w].phase.turn.readAt + limit));
    SendsLate(s, w, s.passes[w].phase.turn.readAt + limit);
  }

  lemma EndIsLate(s: State, later: seq<Action>, u: State, w: nat, limit: real, last: real)
    requires Inv(s) && s.now >= 0.0 && In(s, w) && s.passes[w].phase.Uploading?
    requires !Next(s.passes[w].phase.turn).exhausted && s.now <= last == s.passes[w].phase.turn.readAt + limit
    requires later == LateSteps(w, last) && u == Run(s, later)
    ensures PromptRun(s, later, limit) && EndsLate(s, u, w, limit)
  {
    hide *;
    LateEnd(s, w, last);
    PromptThree(s, w, limit);
    SentLate(s, u, w, limit);
  }

  /** Whatever turn is being sent, some run that keeps to the limit makes its successor fall
      due at its latest due time; so with no more slack than the limit, not before the
      millisecond of its deadline. */
  lemma SomeRunIsLate(limits: Limits, before: seq<Action>, w: nat, limit: real) returns (later: seq<Action>)
    requires var s := Run(Initial(limits), before);
             In(s, w) && s.passes[w].phase.Uploading?
             && var t := s.passes[w].phase.turn; !Next(t).exhausted && s.now <= t.readAt + limit
    ensures var s := Run(Initial(limits), before);
            PromptRun(s, later, limit) && EndsLate(s, Run(s, later), w, limit)
  {
    Reachable(limits, before);
    RunGrows(Initial(limits), before);
    var s := Run(Initial(limits), before);
    var last := s.passes[w].phase.turn.readAt + limit;
    later := LateSteps(w, last);
    var u := Run(s, later);
    hide *;
    EndIsLate(s, later, u, w, limit, last);
  }

  /** Marker i falls due before its deadline. */
  predicate FallsDueInTime(s: State, i: nat) {
    IsMarker(s, i) && s.msgs[i].due.Some? && InTime(s.msgs[i].due.value, MarkerOf(s, i).deadline)
  }

  /** In every run from s that keeps to the limit, the live successors of the turn worker w is
      sending fall due before their deadline. */
  ghost predicate SafeToSend(s: State, w: nat, limit: real)
    requires w in s.passes && s.passes[w].phase.Uploading?
  {
    forall later, i :: PromptRun(s, later, limit) && SuccessorOf(s, Run(s, later), w, s.passes[w].phase.turn, i) ==>
      FallsDueInTime(Run(s, later), i)
  }

  lemma SameDeadline(s: State, i: nat)
    requires Inv(s) && i < |s.origins| && s.origins[i].birth.Born? && IsMarker(s, i)
    ensures MarkerOf(s, i).deadline == s.origins[i].birth.turn.state.deadline
  {
    OneOriginEach(s);
    assert MessageOk(s, i);
  }

  lemma OneInTime(s: State, u: State, w: nat, limit: real, i: nat)
    requires w in s.passes && s.passes[w].phase.Uploading? && Inv(u) && |s.origins| == |s.msgs|
    requires SuccessorOf(s, u, w, s.passes[w].phase.turn, i) && AllPrompt(u, |s.origins|, limit)
    requires InTime(LatestDue(s.passes[w].phase.turn, limit), s.passes[w].phase.turn.state.deadline)
    ensures FallsDueInTime(u, i)
  {
    hide Inv, InTime, LatestDue;
    DueByLatest(u, limit, i);
    SameDeadline(u, i);
  }

  lemma OneLate(s: State, w: nat, limit: real)
    requires Inv(s) && s.now >= 0.0 && In(s, w) && s.passes[w].phase.Uploading?
    requires var t := s.passes[w].phase.turn; !Next(t).exhausted && s.now <= t.readAt + limit
    requires !InTime(LatestDue(s.passes[w].phase.turn, limit), s.passes[w].phase.turn.state.deadline)
    ensures !SafeToSend(s, w, limit)
  {
    var t := s.passes[w].phase.turn;
    var last := t.readAt + limit;
    var later := LateSteps(w, last);
    var u := Run(s, later);
    NextIs(t);
    hide Inv, Run, Step, InTime, LatestDue, LateSteps, PromptRun, Next, Slack, Millis;
    EndIsLate(s, later, u, w, limit, last);
    assert SuccessorOf(s, u, w, t, |s.msgs|) && !FallsDueInTime(u, |s.msgs|);
  }

  lemma AllAreInTime(limits: Limits, before: seq<Action>, w: nat, limit: real)
    requires var s := Run(Initial(limits), before);
             In(s, w) && s.passes[w].phase.Uploading?
             && InTime(LatestDue(s.passes[w].phase.turn, limit), s.passes[w].phase.turn.state.deadline)
    ensures SafeToSend(Run(Initial(limits), before), w, limit)
  {
    var s := Run(Initial(limits), before);
    RunGrows(Initial(limits), before);
    Reachable(limits, before);
    OneOriginEach(s);
    hide Inv, Step, InTime, LatestDue, SuccessorOf, PromptRun, FallsDueInTime, AllPrompt;
    forall later, i | PromptRun(s, later, limit) && SuccessorOf(s, Run(s, later), w, s.passes[w].phase.turn, i)
      ensures FallsDueInTime(Run(s, later), i)
    {
      RunAppend(Initial(limits), before, later);
      Reachable(limits, before + later);
      PromptlyBorn(s, later, limit);
      OneInTime(s, Run(s, later), w, limit, i);
    }
  }

  /** Exactly when a turn being sent is safe: all its live successors, in every run that keeps
      to the limit, fall due before their deadline if and only if the latest due time does. */
  lemma InTimeExactlyWhen(limits: Limits, before: seq<Action>, w: nat, limit: real)
    requires var s := Run(Initial(limits), before);
             In(s, w) && s.passes[w].phase.Uploading?
             && var t := s.passes[w].phase.turn; !Next(t).exhausted && s.now <= t.readAt + limit
    ensures var s := Run(Initial(limits), before);
            var t := s.passes[w].phase.turn;
            SafeToSend(s, w, limit) <==> InTime(LatestDue(t, limit), t.state.deadline)
  {
    var s := Run(Initial(limits), before);
    Reachable(limits, before);
    RunGrows(Initial(limits), before);
    hide Inv, InTime, LatestDue, SafeToSend, Run;
    if InTime(LatestDue(s.passes[w].phase.turn, limit), s.passes[w].phase.turn.state.deadline) {
      AllAreInTime(limits, before, w, limit);
    } else {
      OneLate(s, w, limit);
    }
  }

  lemma UnrollThree(s: State, run: seq<Action>)
    requires |run| == 3
    ensures Run(s, run[..0]) == s && Run(s, run[..1]) == Step(s, run[0])
    ensures Run(s, run[..2]) == Step(Step(s, run[0]), run[1])
    ensures Run(s, run) == Step(Step(Step(s, run[0]), run[1]), run[2])
  {
    hide Step;
    assert run[..3] == run && Run(s, run[..0]) == s;
    UnrollOne(s, run, 0);
    UnrollOne(s, run, 1);
    UnrollOne(s, run, 2);
  }

  lemma SendsLate(s: State, w: nat, last: real)
    requires Inv(s) && In(s, w) && s.passes[w].phase.Uploading? && s.now <= last
    ensures var t := s.passes[w].phase.turn;
            var s2 := Step(Step(s, Tick(last)), Upload(w, false, false));
            var u := Step(s2, Publish(w, Written));
            && In(s2, w) && s2.passes[w].phase == ToPublish(t) && s2.now == last
            && |u.msgs| == |u.origins| == |s.msgs| + 1
            && u.origins[|s.msgs|] == Origin(Born(s.passes[w].lease.id, s.passes[w].lease.attempt, t, last), t.envelope.tier)
            && u.msgs[|s.msgs|].body == Some(Message(t.envelope, Next(t)))
            && u.msgs[|s.msgs|].due == Some(DueAt(last, DelayOf(Next(t))))
  {
    OneOriginEach(s);
    hide Inv, Step, Next, Message, DelayOf, DueAt, Enqueue;
    var t := s.passes[w].phase.turn;
    var s1 := s.(now := last);
    var s2 := Goto(Sent(s1, Protocol.Replay(s.passes[w].lease, t, false)), w, ToPublish(t));
    TicksTo(s, last);
    UploadFails(s1, w);
    PublishesNext(s2, w);
  }

  lemma TicksTo(s: State, last: real)
    requires s.now <= last
    ensures Step(s, Tick(last)) == s.(now := last)
  {
  }

  lemma UploadFails(s: State, w: nat)
    requires In(s, w) && s.passes[w].phase.Uploading?
    ensures var t := s.passes[w].phase.turn;
            Step(s, Upload(w, false, false)) == Goto(Sent(s, Protocol.Replay(s.passes[w].lease, t, false)), w, ToPublish(t))
  {
    hide DoWorld, DoLookup, DoExecute, DoPersist, DoDeliver, DoPublish, PayloadSent;
  }

  lemma PublishesNext(s: State, w: nat)
    requires In(s, w) && s.passes[w].phase.ToPublish?
    ensures var t, u := s.passes[w].phase.turn, Step(s, Publish(w, Written));
            && u.msgs == s.msgs + [Fresh(Some(Message(t.envelope, Next(t))), Some(DueAt(s.now, DelayOf(Next(t)))),
                                         Next(t).exhausted, s.now)]
            && u.origins == s.origins + [Origin(Born(s.passes[w].lease.id, s.passes[w].lease.attempt, t, s.now),
                                                t.envelope.tier)]
  {
    hide DoWorld, DoLookup, DoExecute, DoPersist, DoDeliver, DoUpload, Next, Message, DelayOf, DueAt;
  }

  lemma FloorGrows(x: real, y: real)
    requires x <= y
    ensures x.Floor <= y.Floor
  {
  }
}
